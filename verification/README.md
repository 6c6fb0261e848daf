# Dabba Nation order and payment core, in Dafny

Dabba Nation sells home-cooked tiffin subscriptions (a daily trial, a weekly
and a monthly package). This project models the server core of its Next.js
application and proves properties of that model. The modelled behaviour is:

- **Order creation.** Plan-to-package mapping, field checks, phone and pincode
  formats, and the spam rule (three orders from one phone in five minutes).
  The new order is stored as pending and inactive.
- **The payment lifecycle:**
  - the payment-gateway order request;
  - client-side verification with an HMAC signature;
  - the gateway webhook for captured and failed payments;
  - the invariant that an order is active only once paid, and that a paid
    order is never changed by a later payment event.
- **Admin operations:** marking a meal delivered, the paginated admin listing
  with its once-a-day meal reset, and order deactivation.
- **The public paginated listing.**
- **Rate limiting:**
  - the in-memory, fixed-window rate limiter keyed by client address;
  - the admin misuse tracker keyed by `token:action`.
- **Subscription helpers:** duration table, lazy expiry, active-subscription
  lookup.
- **Client-side rules:**
  - the checkout form's validation and plan table;
  - the admin dashboard's analytics, search and package list;
  - the order list page's search, days-left badge and short id.

Structure:

- One Dafny module per source file. Helper modules hold the shared pieces:
  `Common`, `Strings`, `OrderModel`, `Pagination`, `PaymentLifecycle`.
- Each route handler is a pure function of the stored orders and of its
  inputs. It returns the response and the new store.
- `Store.OrderStore` is the mutable collection, a `map` from order id to
  order. Its methods run each handler step by step and are proved equal to
  those functions. The store invariant `Consistent` says:
  - ids are keys;
  - an order is active only when paid;
  - a gateway payment id only on a paid order.

  Every method preserves it, together with `PaymentMonotone`: an order never
  goes back to pending, and a paid order's payment fields never change.
- The rate limiter and the misuse tracker are classes over `map` fields,
  updated in place as the source's module-level objects are.
- Every route shares the one limiter store, keyed by client address alone,
  with a different maximum per route. A client's calls to different routes
  therefore count against each other's windows.

Time is an integer count of milliseconds since the epoch, passed in as a
parameter. A "day" is a multiple of 86 400 000 ms. The following are
parameters of the model, never computed:

- HMAC-SHA256 is the function-typed field `hmac` of `Common.Config`;
- the environment variables are `Option<string>` fields of `Common.Config`;
- the gateway's reply;
- the parsed webhook body;
- the decoded admin JWT.

## Model

| member | source | states |
|---|---|---|
| Common.Lookup | src/app/api/orders/deactivate/route.ts:21-28 | a `findOne` by id finds an order exactly when the id is stored, and returns that order |
| Strings.RemoveSpaces | src/lib/validations.ts:17 | removing whitespace keeps no whitespace character and never lengthens the string |
| Strings.DigitsOnly | src/app/checkout/page.tsx:116 | removing every non-digit leaves only digits and never lengthens the string |
| Strings.RemoveSpacesOfDigitsAndSpaces | src/lib/validations.ts:17-23 | on a string of digits and spaces, removing whitespace and keeping only digits agree |
| Strings.StrayCharacterSurvives | src/lib/validations.ts:14-24 | a character that is neither digit nor space survives whitespace removal, so the digits-only formats reject the input |
| Strings.TrimStart | src/app/checkout/page.tsx:108 | the result is a suffix whose dropped prefix is all whitespace and which does not start with whitespace |
| Strings.TrimEnd | src/app/checkout/page.tsx:108 | the result is a prefix whose dropped suffix is all whitespace and which does not end with whitespace |
| Strings.Trim | src/app/checkout/page.tsx:108-130 | `trim()` is empty exactly when the string is all whitespace; otherwise it neither starts nor ends with whitespace |
| Strings.ToLower | src/app/components/admin/dashboard/page.tsx:206-207 | lower-casing keeps the length and maps every character independently |
| Strings.IncludesIffOccurs | src/app/components/admin/dashboard/page.tsx:206-207 | `includes` holds exactly when the term occurs at some position of the string |
| Strings.IncludesEmpty | src/app/admin/OrderList/page.tsx:13-16 | every string includes the empty term |
| Strings.LastChars | src/app/admin/OrderList/page.tsx:68 | `slice(-n)` is the suffix of length n, or the whole string when it is shorter |
| Strings.Decimal | src/app/api/orders/create/route.ts:94 | the decimal rendering of a timestamp is non-empty and all digits |
| Strings.DecimalRoundTrip | src/app/api/orders/create/route.ts:94 | parsing the decimal rendering of n gives back n |
| Strings.DecimalInjective | src/app/api/orders/create/route.ts:94 | different numbers render differently |
| Strings.DecimalLength | src/app/admin/OrderList/page.tsx:68 | a number at least 10^k has more than k digits |
| OrderModel.ParsePackage | src/models/Order.ts:13-17 | the package enum: a string is accepted exactly when it names a package, and parsing inverts naming |
| OrderModel.ParseMeal | src/app/api/admin/orders/mark-meal/route.ts:31-37 | a meal name is accepted exactly when it is breakfast, lunch or dinner, and parsing inverts naming |
| OrderModel.WithMeal | src/models/Order.ts:32-45 | replacing one meal's record leaves the other two unchanged |
| OrderModel.UndeliveredMeals | src/models/Order.ts:32-45 | the schema default: no meal delivered and no delivery time |
| OrderModel.NewDocument | src/models/Order.ts:5-86 | a new document takes the given fields. Defaults: active when `active` is unset, status placed, meals undelivered, `lastMealReset` and `createdAt` now, no gateway references, no end date |
| Validations.PhoneAccepted | src/lib/validations.ts:14-18 | a phone is valid exactly when it is digits and spaces, has ten digits, and its first digit is 6 to 9 |
| Validations.PincodeAccepted | src/lib/validations.ts:20-24 | a pincode is valid exactly when it is digits and spaces with six digits |
| Validations.ValidateAdminToken | src/lib/validations.ts:187-192 | a token is accepted if and only if it equals a configured, non-empty admin token |
| RateLimit.WindowStep | src/lib/validations.ts:71-100 | an unseen key or an ended window (`now > resetTime`) starts a window of one call, admitted with `max - 1` remaining and a reset `windowMs` later; within an open window a call is admitted exactly when the count is below the maximum, and then the count goes up by one; a refusal leaves the window untouched with nothing remaining; the count never exceeds the maximum |
| RateLimit.CheckStore | src/lib/validations.ts:71-100 | a check records a window for its own key and leaves every other key's window alone |
| RateLimit.OpenWindowAdmitsAtMostRoom | src/lib/validations.ts:93-99 | while a window is open it admits at most the room left in it |
| RateLimit.FirstWindowAdmitsAtMostMax | src/lib/validations.ts:79-99 | calls within one window length of the first admit at most the maximum (at least the first call) |
| RateLimit.RateLimiter.constructor | src/lib/validations.ts:63 | the store starts empty |
| RateLimit.RateLimiter.Check | src/lib/validations.ts:71-100 | `checkRateLimit` updates the limiter's store in place, as `CheckStore` describes |
| RateLimit.MisuseKeySeparates | src/lib/validations.ts:127 | when actions contain no colon, the key `token:action` identifies token and action |
| RateLimit.MisuseKeyCollision | src/lib/validations.ts:127 | a token containing a colon can share a key with a different token and action |
| RateLimit.MisuseStep | src/lib/validations.ts:129-159 | the same window rule over `timeWindowSeconds * 1000`: a new or ended window starts at one admitted action; an open window admits exactly while the count is below the maximum and then counts one more; a refusal (and only a refusal) carries the "Too many … requests" reason and changes nothing; a new entry records token, action and time; the count never exceeds the maximum |
| RateLimit.MisuseCheck | src/lib/validations.ts:120-160 | a check records an entry under its own key and leaves every other key alone |
| RateLimit.AdminMisuseTracker.constructor | src/lib/validations.ts:111 | the log starts empty |
| RateLimit.AdminMisuseTracker.Check | src/lib/validations.ts:120-160 | `checkAdminMisuse` updates the tracker's log in place, as `MisuseCheck` describes |
| Pagination.CeilDiv | src/app/api/orders/list/route.ts:30 | `Math.ceil(a / b)` is the least integer q with a <= q * b for positive b |
| Pagination.TotalPages | src/app/api/orders/list/route.ts:28-30 | with a positive limit the page count is the least number of pages holding every order; a zero limit has no count (`Infinity`/`NaN`) |
| Pagination.PageSlice | src/app/api/orders/list/route.ts:33-38 | `skip(k).limit(n)` fails on a negative skip. Otherwise it returns the |n| orders from position k, clipped to the end; a zero limit means no limit |
| Pagination.PagesWithinTotalAreNonEmpty | src/app/api/orders/list/route.ts:26-38 | with a positive limit, page p is non-empty exactly when p is at most the page count |
| PaymentLifecycle.MarkVerified | src/app/api/payments/verify/route.ts:118-125 | verification sets paid, active, the payment id and the verification time, and changes nothing else |
| PaymentLifecycle.MarkCaptured | src/app/api/payments/webhook/route.ts:32-39 | capture sets paid, active, the payment id and the payment time, and changes nothing else |
| PaymentLifecycle.MarkFailed | src/app/api/payments/webhook/route.ts:52-56 | failure sets the failed status only |
| PaymentLifecycle.ApplyStep | src/app/api/payments/verify/route.ts:112-127 | one payment event keeps an order consistent. It keeps the id and gateway order, never returns to pending, and leaves a paid order unchanged |
| PaymentLifecycle.PaidIsAbsorbing | src/app/api/payments/webhook/route.ts:27-31 | once paid, no sequence of verifications, captures or failures changes the order |
| PaymentLifecycle.RunKeepsInvariants | src/app/api/payments/verify/route.ts:112-127 | any sequence of payment events keeps the order consistent and never returns it to pending |
| PaymentLifecycle.AtMostOneSettlement | src/app/api/payments/webhook/route.ts:27-40 | among any sequence of events at most one marks the order paid, and none does if it already was |
| PaymentLifecycle.FirstSettlerWins | src/app/api/payments/webhook/route.ts:27-40 | an unpaid order ends paid exactly when some event settles it, and it keeps the first settler's payment id |
| PaymentLifecycle.FailedOrderOnlyCapturable | src/app/api/payments/webhook/route.ts:24-58 | a failed order ignores client verification and further failures, but a webhook capture naming its gateway order still pays it |
| PaymentLifecycle.ApplyIdempotent | src/app/api/payments/verify/route.ts:112-127 | replaying the same payment event changes nothing more |
| CreateRoute.PlanSelectsPackage | src/app/api/orders/create/route.ts:39-53 | a plan key is accepted exactly when it is trial, daily, weekly or monthly; trial becomes the daily package, the others are their own name |
| CreateRoute.ChosenAmount | src/app/api/orders/create/route.ts:91 | the amount is the client's price when it is non-zero, the package price when the price is absent or zero |
| CreateRoute.OrderIdAt | src/app/api/orders/create/route.ts:94 | every issued order id starts with `ORD-` |
| CreateRoute.OrderIdsDiffer | src/app/api/orders/create/route.ts:94 | orders created at different milliseconds get different ids |
| CreateRoute.Create | src/app/api/orders/create/route.ts:19-117 | an order is created exactly when every check passes, stored under its id as pending and inactive with the chosen package and amount, the customer's four fields, no meal delivered, no gateway references and `createdAt` now; any refusal leaves the store unchanged; consistency is kept |
| CreateRoute.FirstFailureDecides | src/app/api/orders/create/route.ts:25-89 | the checks answer in the source's order: rate limit, package, completeness, phone, pincode, spam |
| CreateRoute.SpamRefused | src/app/api/orders/create/route.ts:79-89 | a valid request from a phone with three recent orders is refused with that count and stores nothing |
| PaymentOrderRoute.RequestFor | src/app/api/payments/create-order/route.ts:71-79 | the gateway request asks for the amount in paise, in INR, with the order id as receipt and note |
| PaymentOrderRoute.Prepare | src/app/api/payments/create-order/route.ts:16-68 | a request is sent exactly when the call is admitted, the id is an `ORD-` id of a stored unpaid order with a positive amount, and both keys are set. The first failing guard decides the refusal: rate limited, invalid id, not found, already paid, invalid amount, configuration error |
| PaymentOrderRoute.Reply | src/app/api/payments/create-order/route.ts:71-100 | a refusal is passed through; a gateway error becomes a 500; a gateway order is returned with its id, amount, currency and key |
| PaymentOrderRoute.UnpaidOrderCanBeResent | src/app/api/payments/create-order/route.ts:29-79 | an unpaid order may be sent to the gateway again; nothing makes the route idempotent |
| VerifyRoute.Verify | src/app/api/payments/verify/route.ts:7-135 | verification succeeds exactly when the fields are present strings and the order exists, is pending, younger than 24 h and bound to the gateway order; the secret must be set and the signature match. Only success changes the store, and only that order. The first failing guard decides the refusal: rate limited, missing details, invalid format, not found, already paid (for any paid order), expired, configuration error, invalid signature, and conflict for an unsettled order not pending on that gateway order |
| VerifyRoute.VerifyKeepsInvariants | src/app/api/payments/verify/route.ts:112-127 | verification keeps the store consistent and payments monotone |
| VerifyRoute.VerifyIsIdempotent | src/app/api/payments/verify/route.ts:62-69 | after a success, any later verification for that order answers "already paid" and changes nothing |
| VerifyRoute.ExpiredOrderRefused | src/app/api/payments/verify/route.ts:71-79 | an unpaid order older than 24 hours is refused and nothing changes |
| VerifyRoute.ValidPaymentOnFreshOrderConflicts | src/app/api/payments/verify/route.ts:112-135 | as written: with no gateway order stored, a valid signature on a fresh pending order still ends in 409 |
| VerifyRoute.BoundOrderVerifies | src/app/api/payments/verify/route.ts:112-127 | an order bound to the gateway order is marked paid and active with the payment id |
| WebhookRoute.Decide | src/app/api/payments/webhook/route.ts:10-60 | a write happens only on a matching signature. Capture is for `payment.captured`, failure for `payment.failed`, each with the payload's gateway order id, which may be null. An unset secret, a signed body that is not JSON, or a payment event without its entity crash with 500; a wrong signature gets 400; any other signed event is acknowledged with 200 and no write |
| WebhookRoute.AtMostOneOrderChanges | src/app/api/payments/webhook/route.ts:27-57 | a notification changes at most one order, and that order matched the filter |
| WebhookRoute.EffectKeepsInvariants | src/app/api/payments/webhook/route.ts:24-58 | a notification keeps the store consistent and payments monotone, and never touches a paid order |
| WebhookRoute.UnboundStoreIgnoresNotifications | src/app/api/payments/webhook/route.ts:27-57 | as written: with no gateway order stored, no notification that names a gateway order changes anything |
| WebhookRoute.NullRefCapturePaysUnboundOrder | src/app/api/payments/webhook/route.ts:24-40 | as written: a correctly signed capture whose payment has a null `order_id` pays and activates an order bound to no gateway order, whenever an unpaid one is stored |
| WebhookRoute.NullRefFailureFailsUnboundOrder | src/app/api/payments/webhook/route.ts:44-57 | as written: a correctly signed failure with a null `order_id` marks a pending unbound order failed, whenever one is stored |
| WebhookRoute.DecideBound | src/app/api/payments/webhook/route.ts:24-58 | corrected: a write always names a gateway order and is otherwise the source's decision; the reply is unchanged |
| WebhookRoute.BoundNotificationChangesOnlyNamedOrder | src/app/api/payments/webhook/route.ts:24-58 | corrected: an order a notification changes is bound to exactly the gateway order its payment names |
| MarkMealRoute.DeliverMeal | src/app/api/admin/orders/mark-meal/route.ts:74-88 | the meal is delivered now; the others are unchanged; dinner on a daily package deactivates the order; nothing else changes |
| MarkMealRoute.MarkMeal | src/app/api/admin/orders/mark-meal/route.ts:6-88 | a meal is marked exactly when the admin token is valid, the id and meal are valid, and the order exists, is paid and the meal is not yet delivered. Only success changes the store. The first failing guard decides the refusal: unauthorized, missing id, invalid meal, not found, payment not confirmed (with the status), already delivered (with the meal) |
| MarkMealRoute.SecondMarkFails | src/app/api/admin/orders/mark-meal/route.ts:62-71 | marking the same meal again is refused and changes nothing |
| MarkMealRoute.MarkMealKeepsInvariants | src/app/api/admin/orders/mark-meal/route.ts:74-88 | marking a meal keeps the store consistent and payments monotone |
| DeactivateRoute.Cancel | src/app/api/orders/deactivate/route.ts:31-33 | deactivation sets inactive and cancelled and nothing else |
| DeactivateRoute.Deactivate | src/app/api/orders/deactivate/route.ts:6-42 | the route cancels the order exactly when a non-empty id is stored, and otherwise leaves the store alone; an empty id gets 400 and an unknown one 404 |
| DeactivateRoute.DeactivateIdempotent | src/app/api/orders/deactivate/route.ts:31-33 | deactivating twice is the same as once |
| DeactivateRoute.DeactivateKeepsInvariants | src/app/api/orders/deactivate/route.ts:31-33 | deactivation keeps the store consistent and payments monotone |
| AdminOrdersRoute.ResetMeals | src/app/api/admin/orders/route.ts:86-104 | the reset clears every meal and its delivery time, stamps the reset time and changes nothing else |
| AdminOrdersRoute.ResetOrderIsCurrent | src/app/api/admin/orders/route.ts:78-83 | a reset order no longer needs a reset that day |
| AdminOrdersRoute.ResetAll | src/app/api/admin/orders/route.ts:86-104 | `updateMany` resets exactly the chosen ids and leaves every other order alone |
| AdminOrdersRoute.ResetAllKeepsInvariants | src/app/api/admin/orders/route.ts:86-104 | the reset keeps the store consistent and payments monotone, and every reset order is current |
| AdminOrdersRoute.Shown | src/app/api/admin/orders/route.ts:106-114 | an order in the reply never needs a reset; it is reset exactly when it needed one |
| AdminOrdersRoute.ResetIds | src/app/api/admin/orders/route.ts:78-83 | the ids reset are exactly those of page rows that need a reset: not daily, last reset before today |
| AdminOrdersRoute.AdminList | src/app/api/admin/orders/route.ts:9-126 | a page is served exactly when the rate limit, JWT and misuse checks pass and the skip is not negative. It holds the page's orders as shown, the total and the page count. Resets happen only with a page |
| AdminOrdersRoute.ServePage | src/app/api/admin/orders/route.ts:46-126 | past the checks, the reply is a page or a database error |
| AdminOrdersRoute.PageShowsListedOrders | src/app/api/admin/orders/route.ts:51-66 | every order on an admin page is active and paid, newest first |
| ListRoute.ListLimit | src/app/api/orders/list/route.ts:25 | the limit is the requested one (10 by default) capped at 100, never raised |
| ListRoute.ListOrders | src/app/api/orders/list/route.ts:6-47 | a page is served exactly when admitted with a non-negative skip; count, total, page count and the slice of orders newest first |
| ListRoute.PositiveLimitPageBounded | src/app/api/orders/list/route.ts:25-46 | with a positive limit a page holds at most that many (hence 100) orders, and is non-empty exactly up to the page count |
| ListRoute.ZeroLimitListsEverything | src/app/api/orders/list/route.ts:25 | as written: `?limit=0` returns every order on page 1 with no page count |
| ListRoute.CappedListLimit | src/app/api/orders/list/route.ts:25 | corrected: the limit is clamped to 1..100, keeping any requested value within it |
| ListRoute.CappedListOrders | src/app/api/orders/list/route.ts:24-47 | corrected: every page served holds at most 100 orders, and a page is served exactly when admitted with a page number of at least 1 |
| Subscription.DurationDays | src/lib/subscriptionHelper.ts:88-92 | trial and daily run one day, weekly seven, monthly thirty, anything else none |
| Subscription.SubscriptionDates | src/lib/subscriptionHelper.ts:86-99 | a subscription starts now and ends its duration in whole days later |
| Subscription.Expire | src/lib/subscriptionHelper.ts:16-21 | expiry sets inactive and expired and nothing else |
| Subscription.ExpireAll | src/lib/subscriptionHelper.ts:11-22 | the expiry changes exactly the active orders with an end date before now |
| Subscription.ExpireAllIdempotent | src/lib/subscriptionHelper.ts:7-35 | after an expiry nothing is due: a second run changes nothing and counts zero |
| Subscription.ExpiryChangesExactlyExpiring | src/lib/subscriptionHelper.ts:11-26 | an order changes if and only if it is counted in `modifiedCount` |
| Subscription.ExpireAllKeepsInvariants | src/lib/subscriptionHelper.ts:11-22 | the expiry keeps the store consistent and leaves payments alone |
| Subscription.ExpiryPreservesLiveOrders | src/lib/subscriptionHelper.ts:40-81 | expiring first does not change which of a user's orders are live |
| Checkout.PlanPrice | src/app/checkout/page.tsx:7-29 | the page has a price exactly for monthly, weekly and trial |
| Checkout.PlanPricesAgreeWithServer | src/app/checkout/page.tsx:7-29 | every plan offered is accepted by the create route, and its price is the route's price for the mapped package |
| Checkout.DigitAtMeansNotBlank | src/app/checkout/page.tsx:114-130 | a string holding a digit is not blank once trimmed |
| Checkout.SomeDigit | src/app/checkout/page.tsx:116 | a string whose digits are not empty has a digit at some index |
| Checkout.DigitsMeanNotBlank | src/app/checkout/page.tsx:114-118 | a string with digits is not blank, so "required" never hides a valid phone |
| Checkout.ValidateForm | src/app/checkout/page.tsx:105-134 | each field gets a message exactly when it breaks its rule, "required" taking priority, and no other key is set |
| Checkout.FormValidExactlyWhenAcceptable | src/app/checkout/page.tsx:105-134 | the form has no errors if and only if: the trimmed name has at least 2 characters; the phone has 10 digits; the trimmed address has at least 10 characters; the pincode is exactly 6 digits |
| Checkout.ServerPhoneSatisfiesClient | src/app/checkout/page.tsx:114-118 | every phone the server accepts passes the page's phone rule |
| Checkout.ClientAcceptsPhoneServerRefuses | src/app/checkout/page.tsx:114-118 | a ten-digit phone starting 0 to 5 passes the page but is refused by the server |
| Checkout.DigitsOnlyOfDigits | src/app/checkout/page.tsx:116 | removing non-digits from a string of digits changes nothing |
| Checkout.ClientPincodeSatisfiesServer | src/app/checkout/page.tsx:126-130 | every pincode the page accepts the server accepts |
| Dashboard.CountSinceMonotone | src/app/components/admin/dashboard/page.tsx:69-74 | orders today are at most orders this week, at most all orders |
| Dashboard.CountInSplit | src/app/components/admin/dashboard/page.tsx:118-134 | counts and revenues over adjacent time ranges add up |
| Dashboard.IndexOf | src/app/components/admin/dashboard/page.tsx:95 | the package's entry if there is one, otherwise past the end with no entry for it |
| Dashboard.SumsOfUpdate | src/app/components/admin/dashboard/page.tsx:95-99 | replacing one entry changes the sums by the difference |
| Dashboard.SumsOfAppend | src/app/components/admin/dashboard/page.tsx:95-99 | appending an entry adds its count and revenue |
| Dashboard.GroupedSums | src/app/components/admin/dashboard/page.tsx:82-100 | the per-package counts add up to the number of orders, and revenues to the total revenue |
| Dashboard.GroupedByPackage | src/app/components/admin/dashboard/page.tsx:82-100 | one entry per package; each entry's count and revenue are those of the orders with that package; every order's package has an entry |
| Dashboard.AbsentKeyCountsNothing | src/app/components/admin/dashboard/page.tsx:95 | a package no order has counts nothing |
| Dashboard.InsertByRevenue | src/app/components/admin/dashboard/page.tsx:108 | inserting into a revenue-descending list keeps it sorted and adds exactly that entry |
| Dashboard.SortByRevenue | src/app/components/admin/dashboard/page.tsx:102-108 | the sort by descending revenue is sorted and a permutation of its input |
| Dashboard.FindPackage | src/app/components/admin/dashboard/page.tsx:95 | the search loop finds the package's entry as `IndexOf` describes |
| Dashboard.BumpEntries | src/app/components/admin/dashboard/page.tsx:95-99 | adding an order to its package entry, or appending a new entry |
| Dashboard.Accumulate | src/app/components/admin/dashboard/page.tsx:82-100 | the loop yields the per-package grouping, the total revenue and the revenue since today and since a week ago |
| Dashboard.DailyGrowth | src/app/components/admin/dashboard/page.tsx:118-134 | seven buckets, oldest first, each counting the orders and revenue of its day |
| Dashboard.CalculateAnalytics | src/app/components/admin/dashboard/page.tsx:63-146 | counts today and this week (ordered, at most all), revenues, per-package grouping sorted by revenue and a permutation of the grouping, counts adding up, seven daily buckets |
| Dashboard.GrowthCoversDays | src/app/components/admin/dashboard/page.tsx:118-134 | the first n daily buckets together count exactly the orders of those n days |
| Dashboard.EmptyRange | src/app/components/admin/dashboard/page.tsx:122-125 | an empty time range holds no order |
| Dashboard.EmptyTermMatches | src/app/components/admin/dashboard/page.tsx:205-207 | the empty search term matches every order |
| Dashboard.FilteredOrders | src/app/components/admin/dashboard/page.tsx:204-213 | the filter keeps exactly the orders matching the search and the package, and never lengthens the list |
| Dashboard.FilterOne | src/app/components/admin/dashboard/page.tsx:204-213 | a single order is kept exactly when it is shown |
| Dashboard.FilterAppend | src/app/components/admin/dashboard/page.tsx:204-213 | filtering distributes over concatenation; with FilterOne this pins the result to the shown orders in their original order, none repeated |
| Dashboard.EmptySearchShowsAll | src/app/components/admin/dashboard/page.tsx:204-213 | with no search term and no package filter every order is shown |
| Dashboard.StrLessIrreflexive | src/app/components/admin/dashboard/page.tsx:218 | the character order standing for `sort()`'s is irreflexive |
| Dashboard.StrLessTransitive | src/app/components/admin/dashboard/page.tsx:218 | it is transitive |
| Dashboard.StrLessTotal | src/app/components/admin/dashboard/page.tsx:218 | it is total on distinct strings |
| Dashboard.BeforeTotalOrder | src/app/components/admin/dashboard/page.tsx:218 | the order with a missing package sorted last is a strict total order |
| Dashboard.InsertUnique | src/app/components/admin/dashboard/page.tsx:216-218 | inserting into the sorted set keeps it strictly ascending and adds exactly that element |
| Dashboard.OccursInPrefix | src/app/components/admin/dashboard/page.tsx:217 | a package occurs in the orders exactly when it occurs before the last or is the last's |
| Dashboard.UniquePackages | src/app/components/admin/dashboard/page.tsx:216-218 | the package list is strictly ascending and holds exactly the packages that occur |
| Dashboard.UniquePackagesDistinct | src/app/components/admin/dashboard/page.tsx:216-218 | no package is listed twice |
| OrderListPage.SearchOrders | src/app/admin/OrderList/page.tsx:12-18 | the search keeps exactly the orders whose name or id contains the term, ignoring case, and never lengthens the list |
| OrderListPage.SearchOne | src/app/admin/OrderList/page.tsx:12-18 | a single order is kept exactly when its name or id contains the term |
| OrderListPage.SearchAppend | src/app/admin/OrderList/page.tsx:12-18 | the search distributes over concatenation; with SearchOne this pins the result to the matching orders in their original order, none repeated |
| OrderListPage.EmptyTermKeepsAll | src/app/admin/OrderList/page.tsx:12-18 | the empty term keeps every order |
| OrderListPage.WholeDays | src/app/admin/OrderList/page.tsx:45-48 | the number of whole days in a span, truncated toward zero |
| OrderListPage.DaysLeft | src/app/admin/OrderList/page.tsx:45-48 | days left exist exactly when there is an end date, and are the whole days between now and it |
| OrderListPage.ExpiringSoonWithinFourDays | src/app/admin/OrderList/page.tsx:45-49 | an order is flagged as expiring exactly when its end date is less than four days away |
| OrderListPage.NoEndDateNotFlagged | src/app/admin/OrderList/page.tsx:49 | an order without an end date is never flagged (a case the dashboard's query does not produce) |
| OrderListPage.Badge | src/app/admin/OrderList/page.tsx:127 | a positive count shows its digits followed by " Days Left"; anything else shows "Last Day!" |
| OrderListPage.BadgeShowsDaysLeft | src/app/admin/OrderList/page.tsx:127 | the badge says "Last Day!" exactly when there is no end date or less than a day remains; otherwise its digits read back as the days left |
| OrderListPage.ShortId | src/app/admin/OrderList/page.tsx:68 | the short id is the last six characters of the id, or all of a shorter one |
| OrderListPage.ShortIdOfIssuedOrder | src/app/admin/OrderList/page.tsx:68 | for an id issued by the create route the short id is the last six digits of the timestamp |
| Store.SelectedKeys | src/app/api/admin/orders/route.ts:51-54 | the ids of the stored orders the query filter selects |
| Store.InsertPosition | src/app/api/orders/list/route.ts:36 | the place in a newest-first list where an order goes: newer or equal before, older after |
| Store.InsertNewest | src/app/api/orders/list/route.ts:36 | inserting keeps the list newest first, places the order there and shifts the rest |
| Store.QueryStep | src/app/api/orders/list/route.ts:33-38 | one more selected order keeps the partial listing valid |
| Store.CompleteListing | src/app/api/orders/list/route.ts:33-38 | once every selected id is taken the listing is complete |
| Store.InsertExtendsListing | src/app/api/orders/list/route.ts:33-38 | inserting a new stored order extends a partial listing |
| Store.InsertKeepsRowsStored | src/app/api/orders/list/route.ts:33-38 | every listed row is a stored order under its own id |
| Store.InsertKeepsIdsDistinct | src/app/api/orders/list/route.ts:33-38 | no order is listed twice |
| Store.InsertCoversTaken | src/app/api/orders/list/route.ts:33-38 | every taken id is listed |
| Store.BindGatewayOrder | src/app/api/payments/create-order/route.ts:71-94 | corrected: storing the gateway order id on the order changes only that field of that order |
| Store.BindingEnablesVerification | src/app/api/payments/verify/route.ts:112-135 | corrected: once bound, a correctly signed verification of a fresh pending order succeeds and pays it |
| Store.BindingKeepsInvariants | src/app/api/payments/create-order/route.ts:71-94 | binding keeps the store consistent and payments monotone |
| Store.OrderStore.constructor | src/models/Order.ts:117 | an empty collection with empty limiter and misuse stores |
| Store.OrderStore.Query | src/app/api/admin/orders/route.ts:51-66 | a query returns the selected stored orders, each once, newest first |
| Store.OrderStore.Create | src/app/api/orders/create/route.ts:19-117 | POST /api/orders/create: the limiter records the call and the outcome and new store are `CreateRoute.Create`'s, with the spam count taken from the store |
| Store.OrderStore.CreatePaymentOrder | src/app/api/payments/create-order/route.ts:12-94 | as written: the limiter records the call, the reply is `Prepare` and `Reply`'s, and the orders are untouched |
| Store.OrderStore.CreatePaymentOrderAndBind | src/app/api/payments/create-order/route.ts:12-94 | corrected: the same reply, and the gateway order id is stored on the order when it is returned |
| Store.OrderStore.Verify | src/app/api/payments/verify/route.ts:7-135 | POST /api/payments/verify: the limiter records the call; outcome and store are `VerifyRoute.Verify`'s |
| Store.OrderStore.Webhook | src/app/api/payments/webhook/route.ts:6-61 | as written: POST /api/payments/webhook; the store changes as the decided action allows, on one matching order, and invariants hold |
| Store.OrderStore.WebhookBound | src/app/api/payments/webhook/route.ts:6-61 | corrected: the same reply; the store changes only as `DecideBound` allows |
| Store.OrderStore.Notify | src/app/api/payments/webhook/route.ts:27-57 | `findOneAndUpdate` applies the action to one matching order, if any, and keeps the invariants |
| Store.OrderStore.MarkMeal | src/app/api/admin/orders/mark-meal/route.ts:6-88 | PATCH mark-meal: outcome and store are `MarkMealRoute.MarkMeal`'s |
| Store.OrderStore.Deactivate | src/app/api/orders/deactivate/route.ts:6-42 | POST deactivate: outcome and store are `DeactivateRoute.Deactivate`'s |
| Store.OrderStore.AdminListOrders | src/app/api/admin/orders/route.ts:9-126 | GET /api/admin/orders. The limiter and misuse log record the call. The rows are the listed orders, newest first. Outcome and resets are `AdminList`'s |
| Store.OrderStore.ServeAdminPage | src/app/api/admin/orders/route.ts:46-126 | the page reply and the reset of its orders, as `ServePage` describes |
| Store.OrderStore.ShowRows | src/app/api/admin/orders/route.ts:106-114 | the `forEach` shows every row reset where needed, and no shown row needs a reset |
| Store.OrderStore.ListOrders | src/app/api/orders/list/route.ts:6-47 | GET /api/orders/list with the corrected cap: all orders newest first, paged by `CappedListOrders`, at most 100 per page |
| Store.OrderStore.AutoExpire | src/lib/subscriptionHelper.ts:7-35 | the store becomes `ExpireAll` of the old one and the count is the number of orders expired |
| Store.OrderStore.HasActiveSubscription | src/lib/subscriptionHelper.ts:40-58 | after the expiry, the answer is whether the user has a live order |
| Store.OrderStore.GetActiveSubscription | src/lib/subscriptionHelper.ts:63-81 | after the expiry, some live order of the user exactly when there is one |

## Left out

- Network, database and process I/O. The database is the in-memory `map`, with no connection failures. Database errors that the handlers catch are not modelled, except a negative `skip`, which MongoDB rejects.
- Concurrency. Each handler runs to completion against one state, with one clock reading per request. Interleavings of the `findOne`/`save` pairs are not modelled.
- Logging and the admin audit log (`logAdminAction`, `console.*`).
- HMAC-SHA256, the Razorpay client and JWT decoding are parameters (`Config.hmac`, the gateway reply, the decoded admin name). The signature comparison uses plain `!==`, so no constant-time property is claimed.
- Local time zone and daylight saving time. "Today" and the dashboard's day boundaries are multiples of 86 400 000 ms, so calendar days of uneven length are not modelled.
- Strings are sequences of Unicode scalar values, whereas JavaScript's `length`, `slice` and `<` work on UTF-16 code units. The two agree on text in the Basic Multilingual Plane; outside it they differ:
  - a name of one emoji such as "😀" has `trim().length` 2 and passes the page's length check, but `Checkout.ValidateForm` records it as too short;
  - `Dashboard.StrLess` puts U+10000 after U+FFFF, while JavaScript, comparing the surrogate 0xD800 with 0xFFFF, puts it before;
  - `slice(-6)` in `OrderListPage.ShortId` counts code units, so it can cut a character in half.
- `Strings.LowerChar` lower-cases only the ASCII letters: Unicode case mapping of other letters is left out.
- Body fields other than strings are modelled only where the handler type-checks them (the verify route's `Field`). Elsewhere an absent or null field is the empty string.
- The `NaN` that `parseInt` returns for a non-numeric page or limit is modelled as an absent parameter.
- Keys of the rate-limit object that collide with `Object.prototype` names are not modelled.
- Checkout.PlanPrice: a plan key naming an `Object.prototype` property (`constructor`, `__proto__`, `toString`, `valueOf`, …) makes `PLANS[planKey]` truthy in the page, which then shows the form instead of "Invalid Plan"; the model answers `None` for these keys. The create route still refuses such an order with 400, because `planToPackageMap[planKey]` yields the inherited property, which names no entry of `PACKAGE_PRICES`.
- `updatedAt`, the schema's `fullName` duplicate and the `user` reference's ObjectId type. Mongoose strict mode drops the `razorpay` and `paidAt` paths that the schema lacks from updates; the model keeps them as order fields, which the findings below depend on.
- The model assumes Mongoose 7 or later, where `strictQuery` is off by default, so a filter on `razorpay.orderId` reaches MongoDB. Under Mongoose 6 the unknown path would be stripped from the filter: a correctly signed verification of a pending order would then succeed whatever gateway order it names, and a capture would pay an arbitrary unpaid order.
- The field projection of `select(...)` in the listings and in `getActiveSubscription`: whole orders are returned.
- The database's order among orders created in the same millisecond: `Store.Listing` allows any.
- The dashboard's floating-point package popularity percentages, chart data and locale date labels.
- The dashboard's package list treats an order without a package as sorting last. JavaScript's `sort()` would place `undefined` last as well, but a `null` package would sort as the string "null".
- The spam check's `catch`, which reports "not spam" on a database error.
- Order ids use the timestamp as a natural number: times before the epoch are not modelled.
- CreateRoute.ChosenAmount: prices are whole rupees (`int`). A fractional client price is not modelled: `plan.price` of 0.5 becomes 50 paise, and 70.555 gives a non-integer amount in paise that the gateway rejects, so the route answers 500.
- PaymentOrderRoute.Prepare: with `RAZORPAY_API_KEY` or `RAZORPAY_API_SECRET` unset, the module-level `new Razorpay(...)` (src/app/api/payments/create-order/route.ts:7-10) may throw when the module loads, so every call answers 500 before the rate limiter counts it. The model treats the keys per call: the limiter counts the call and a missing key answers the configuration error.
- OrderListPage.DaysLeft: the `None` case (no end date) is kept for completeness, but the admin dashboard only passes orders with an end date not yet past (src/app/admin/dashboard/page.tsx:9-12), and `format` of a missing end date would throw (src/app/admin/OrderList/page.tsx:113).
- Store.OrderStore.Webhook: it states the effect of the decided action (`WebhookRoute.Effect`), not which order `findOneAndUpdate` picks when several match; a payload that makes the source throw (unset secret, body not JSON, payment event without its entity) is the 500 outcome with no write.
- Subscription.SubscriptionDates: `setDate(+days)` adds calendar days in local time; the model adds whole 24-hour days.
- OrderListPage.DaysLeft: `differenceInDays` counts full local days; the model truncates the millisecond difference to whole 24-hour days.
- The retired routes that only answer 410 are not modelled: src/app/api/admin/orders/update-status/route.ts, src/app/api/admin/automation/process-lifecycle/route.ts and src/app/api/orders/[orderId]/lifecycle/route.ts.

## Findings

| source | as written | input that shows it | evidently intended | confidence | as-written member | corrected member |
|---|---|---|---|---|---|---|
| src/app/api/payments/create-order/route.ts:71-94 | The gateway order id is returned to the client but never stored on the order. Verification (src/app/api/payments/verify/route.ts:112-117) and the webhook (src/app/api/payments/webhook/route.ts:27-31) both look the order up by that stored id | create an order, request a payment order, then verify with a correctly signed payment: the answer is 409 and the order stays pending; a `payment.captured` webhook naming that gateway order changes nothing | the payment-order route stores the gateway order id on the order, so verification and capture can find it; the order schema gains the `razorpay` and `paidAt` paths, since strict mode would otherwise drop the binding write | high, not executed | Store.OrderStore.CreatePaymentOrder, VerifyRoute.ValidPaymentOnFreshOrderConflicts, WebhookRoute.UnboundStoreIgnoresNotifications | Store.OrderStore.CreatePaymentOrderAndBind, Store.BindingEnablesVerification |
| src/app/api/orders/list/route.ts:25 | `Math.min(limit, 100)` lets a limit of 0 through, and MongoDB reads `limit(0)` as no limit | `GET /api/orders/list?limit=0` returns every stored order on one page, with `totalPages: null` (the JSON reply serialises `Infinity` as `null`) | every page holds between 1 and 100 orders | medium, not executed | ListRoute.ZeroLimitListsEverything | ListRoute.CappedListOrders, Store.OrderStore.ListOrders |
| src/app/api/payments/webhook/route.ts:27-31, 47-51 | The filter `"razorpay.orderId": payment.order_id` is built from the payload as is. MongoDB's equality with null also matches a document that lacks the path | a correctly signed `payment.captured` whose payment has `order_id: null`, with an unbound unpaid order stored: that order is marked paid and active; `payment.failed` likewise fails an unbound pending order | a payment without a gateway order id changes nothing, so a notification reaches only the order bound to the gateway order it names | medium, not executed | WebhookRoute.NullRefCapturePaysUnboundOrder, WebhookRoute.NullRefFailureFailsUnboundOrder, Store.OrderStore.Webhook | WebhookRoute.DecideBound, WebhookRoute.BoundNotificationChangesOnlyNamedOrder, Store.OrderStore.WebhookBound |
