# Get-Me-a-Chai: support-page payment logic and the payment callback

Get-Me-a-Chai lets supporters tip a creator through the Razorpay gateway. This
project models the two parts of it that carry logic, and proves properties about them:

* **The creator's support page** (`src/app/components/PaymentPage.js`). It covers:
  * `sanitizeInput`, which removes every match of the regular expression `<[^>]*>?`;
  * the payment form, which stores only sanitised values (`handleChange`);
  * the ordered guard chain of `pay` (name, then a minimum of 100 minor units, then the creator's credential pair) before `initiate` is called;
  * `quickPay`'s own name check;
  * the amounts the "Pay Now" and quick-pay buttons pass;
  * the page's reaction to the verification reply;
  * the supporter summary: payment count, total raised, and the first seven supporters.
* **The payment-callback endpoint** (`src/app/api/razorpay/route.js`). It covers:
  * the method guard;
  * the signature check, which is delegated to the gateway SDK and modelled as an uninterpreted function of (order id, payment id, signature);
  * the mapping of its verdict, and of any exception, to 200, 400 or 500.

Modules:

| file | module | what it holds |
|---|---|---|
| options.dfy | `Options` | `Option`, JavaScript truthiness of strings |
| sanitizer.dfy | `Sanitizer` | the regular-expression match, the global replace, and its lemmas |
| numbers.dfy | `Numbers` | `Number(s)` for decimal strings, `NaN`, and `* 100` |
| payment_page.dfy | `PaymentPage` | the form, the guards, the button amounts, the summary, and the class `SupportPage` that holds the component's state |
| razorpay_route.dfy | `RazorpayRoute` | `handler` as a function from the request, the SDK construction outcome and the verifier to a response and the list of verifier calls |
| checkout.dfy | `Checkout` | how the page's POST is routed (as written, and as the pages-directory API route its handler is written for), and the page's reaction to the reply, end to end |

The state that the component updates with `setPaymentform`, `setCurrentUser` and
`setPayments` is the class `PaymentPage.SupportPage`. Its invariant `Valid()` says that
no form field holds a `<`. The constructor establishes it with an all-empty form, and
every method keeps it.

The callback endpoint keeps no state. The model returns only the response and the
calls the handler made to the verifier. On success the source writes no record: the
call that would save the payment is commented out (route.js lines 27-28). So the model
has no ledger, and claims neither persistence nor idempotency by payment id.

What the code does, and the model with it:

* The signature check is `razorpay.utils.verifyPaymentSignature`. No HMAC is computed or compared in this code.
* After a valid signature nothing is stored, so no ledger is kept and no write is made idempotent.
* The minimum-amount and credentials checks run in the page, before `initiate`. Whether `initiate` checks again is not visible, because `src/actions/userActions` is not part of this model.
* The endpoint answers 400 only for a rejected signature, and 500 for any exception in its `try` block.
* The route module exports only a default `handler(req, res)` and no named `POST` (see "## Findings"). `Checkout` models this routing as written. Separately, it models the routing the handler is written for: a pages-directory API route (`pages/api/razorpay.js`, as line 1 of the file names it), which passes every request to `handler`.

## Model

| member | source | states |
|---|---|---|
| Sanitizer.Sanitize | src/app/components/PaymentPage.js:31 | the global replace of `<[^>]*>?`. It carries no ensures; SanitizeNoAngle, SanitizeDropsTag, SanitizeKeepsPlainPrefix, SanitizeIdentity, SanitizeIdempotent and SanitizeShorter describe it |
| Sanitizer.TagBodyLength | src/app/components/PaymentPage.js:31 | the greedy `[^>]*>?` part of a match stops just after the first `>`, or at the end; no `>` occurs before that point |
| Sanitizer.TagMatchLength | src/app/components/PaymentPage.js:31 | at a `<`, the match of `<[^>]*>?` exists, lies within the string, and no longer prefix is a match (the longest, greedy match) |
| Sanitizer.SanitizeNoAngle | src/app/components/PaymentPage.js:31 | no `<` survives the global replace |
| Sanitizer.SanitizeDropsTag | src/app/components/PaymentPage.js:31 | a match of `<[^>]*>?` is removed whole, `<` through the closing `>`, or through the end of the string when no `>` follows; with SanitizeKeepsPlainPrefix this fixes the replace exactly |
| Sanitizer.SanitizeKeepsPlainPrefix | src/app/components/PaymentPage.js:31 | text before the first `<` is kept as it is, and the rest is sanitised on its own |
| Sanitizer.SanitizeIdentity | src/app/components/PaymentPage.js:31 | a string without `<` is left unchanged |
| Sanitizer.SanitizeIdempotent | src/app/components/PaymentPage.js:31 | sanitising twice equals sanitising once |
| Sanitizer.SanitizeShorter | src/app/components/PaymentPage.js:31 | the output is never longer than the input |
| Sanitizer.SanitizeInput | src/app/components/PaymentPage.js:30-32 | a falsy input (absent or empty) gives the empty string, and a truthy one gives the global replace `Sanitize` of it. The result never holds `<`, is never longer than the input, and equals an input without `<` |
| Sanitizer.SanitizeInputIdempotent | src/app/components/PaymentPage.js:30-32 | feeding a sanitised value back through `sanitizeInput` changes nothing |
| Numbers.Times100 | src/app/components/PaymentPage.js:278 | `NaN * 100` is `NaN`; a finite value is multiplied by 100 |
| Numbers.ToNumber | src/app/components/PaymentPage.js:278 | the empty string reads as 0; a string of digits reads as its decimal value; a negative sign gives a value of at most 0 |
| Numbers.ToNumberDecimal | src/app/components/PaymentPage.js:278 | `whole.fraction` reads as whole plus fraction over 10 to the number of fraction digits (for example `"1.5"` is 1.5, `".5"` is 0.5) |
| Numbers.ToNumberNegated | src/app/components/PaymentPage.js:278 | a leading `-` negates the value of the rest, and `NaN` stays `NaN` |
| Numbers.ToNumberPlus | src/app/components/PaymentPage.js:278 | a leading `+` changes nothing |
| Numbers.ToNumberShowNat | src/app/components/PaymentPage.js:278 | reading back the decimal rendering of a whole number gives that number (a round trip) |
| PaymentPage.Form.With | src/app/components/PaymentPage.js:36-39 | `{...prev, [name]: value}` sets the named field to the value and keeps every other field |
| PaymentPage.ChangeForm | src/app/components/PaymentPage.js:34-40 | `handleChange` sets only the named field, to the sanitised value; a form without `<` stays without `<` |
| PaymentPage.EmptyFormIsClean | src/app/components/PaymentPage.js:13-17 | the initial all-empty form holds no `<` |
| PaymentPage.ChangeFormResendsDisplayed | src/app/components/PaymentPage.js:34-40 | when an input re-sends the value it displays, a clean form is left as it is: sanitising a stored value changes nothing |
| PaymentPage.HasCredentials | src/app/components/PaymentPage.js:84 | both `razrpayId` and `razrpaySecret` are truthy; PayGuard states its place in the guard chain |
| PaymentPage.AmountRejected | src/app/components/PaymentPage.js:83 | `!amount \|\| amount < 100` holds exactly when the amount is not a number of at least 100 (`NaN` and 0 included) |
| PaymentPage.PayGuard | src/app/components/PaymentPage.js:82-84 | checks run in a fixed order and the first failure decides. An empty name gives the name error whatever the amount and creator. A non-empty name with an amount that is missing, `NaN` or below 100 gives the amount error. Past both, missing credentials give the payment-methods error. `pay` proceeds exactly when all three checks pass |
| PaymentPage.QuickPayGuard | src/app/components/PaymentPage.js:148-155 | an empty name gives the quick-pay name error, so `pay`'s own name error never appears; otherwise the outcome is that of `pay` |
| PaymentPage.PayOutcome | src/app/components/PaymentPage.js:82-87 | `initiate(amount, username, paymentform)` is reached exactly when the checks pass, with those three arguments; any other outcome is an error toast |
| PaymentPage.PayNowAmount | src/app/components/PaymentPage.js:278 | `paymentform.amount ? paymentform.amount * 100 : 0`. It carries no ensures; PayNowEmptyRefused, PayNowWholeRupees, PayNowDecimalRupees and PayNowNegativeRefused describe it |
| PaymentPage.PayNowEmptyRefused | src/app/components/PaymentPage.js:278 | an empty amount field passes 0, which the amount check refuses whenever the name is set |
| PaymentPage.PayNowWholeRupees | src/app/components/PaymentPage.js:278 | a whole number of rupees `n` in the field passes `n * 100`; with a name and credentials, `pay` proceeds exactly when `n >= 1` |
| PaymentPage.PayNowDecimalRupees | src/app/components/PaymentPage.js:278 | a decimal amount `whole.fraction` passes 100 times its value; with a name and credentials, `pay` proceeds exactly when the value is at least 1 (`"1.5"` proceeds, `"0.5"` is refused) |
| PaymentPage.PayNowNegativeRefused | src/app/components/PaymentPage.js:278 | a negative amount in the field is always refused by the amount check |
| PaymentPage.QuickPayAmounts | src/app/components/PaymentPage.js:286-289 | the four quick-pay buttons pass 1000, 10000, 50000 and 100000; none is below the minimum |
| PaymentPage.QuickPayNeverTooLow | src/app/components/PaymentPage.js:148-155 | a quick-pay button never meets the amount error; with a name and credentials it always proceeds |
| PaymentPage.AmountOrZero | src/app/components/PaymentPage.js:196 | `b.amount \|\| 0`: the stored amount, or 0 when it is missing (also the amount shown at line 234, through Row) |
| PaymentPage.TotalRaised | src/app/components/PaymentPage.js:196 | the `reduce` total as a left fold. It carries no ensures; TotalRaisedAppend, TotalRaisedCons and TotalRaisedPrefix describe it |
| PaymentPage.TotalRaisedAppend | src/app/components/PaymentPage.js:196 | the `reduce` total of two runs of payments is the sum of their totals |
| PaymentPage.TotalRaisedCons | src/app/components/PaymentPage.js:196 | each payment adds its amount, a missing amount counting as 0 |
| PaymentPage.TotalRaisedPrefix | src/app/components/PaymentPage.js:196 | with no negative amount, the total is non-negative and at least the total of any prefix |
| PaymentPage.Row | src/app/components/PaymentPage.js:232-237 | a missing or empty name shows "Anonymous", otherwise the name; a missing amount shows 0; the message shows only when it is truthy |
| PaymentPage.TopSupporters | src/app/components/PaymentPage.js:225-240 | the list shows `min(7, n)` rows, row `i` being payment `i` in the original order |
| PaymentPage.Summarize | src/app/components/PaymentPage.js:195-243 | the count is the number of payments and the total is the `reduce` total. The rows are the top-seven list of the payments. "No payments yet" shows exactly when there are no payments, which is exactly when the list is empty |
| PaymentPage.Confirmed | src/app/components/PaymentPage.js:113 | `result.success`: only a readable reply that says so confirms the payment; OnVerificationReply states what follows from it |
| PaymentPage.FailureToast | src/app/components/PaymentPage.js:118-123 | a reply that is not a success shows its message when truthy, otherwise "Payment verification failed" |
| PaymentPage.SupportPage.constructor | src/app/components/PaymentPage.js:13-19 | the page starts with an all-empty form, `{}` as the creator and no payments; the form invariant holds |
| PaymentPage.SupportPage.HandleChange | src/app/components/PaymentPage.js:34-40 | the form becomes the `handleChange` update of the old form, and the no-`<` invariant is kept |
| PaymentPage.SupportPage.GetData | src/app/components/PaymentPage.js:42-64 | a successful fetch stores `userData \|\| {}` and `paymentData \|\| []`; a failed one changes nothing and shows "Failed to load data" |
| PaymentPage.SupportPage.Pay | src/app/components/PaymentPage.js:81-87 | the early returns of `pay` yield exactly the outcome of the ordered guard chain |
| PaymentPage.SupportPage.QuickPay | src/app/components/PaymentPage.js:148-155 | `quickPay` yields exactly the quick-pay guard's outcome |
| PaymentPage.SupportPage.PayNow | src/app/components/PaymentPage.js:278 | "Pay Now" calls `pay` with the field's value times 100, or 0 for an empty field |
| PaymentPage.SupportPage.OnVerificationReply | src/app/components/PaymentPage.js:112-123 | a success reply resets the form to all-empty and reloads the data. After a successful reload, `currentUser` and `payments` are the fetched values and the only toast is "Payment confirmed!". After a failed reload they are unchanged, and "Failed to load data" comes before "Payment confirmed!". Any other reply changes no state and shows the failure toast |
| PaymentPage.SupportPage.CurrentSummary | src/app/components/PaymentPage.js:196 | the header shows the number of stored payments and their total |
| RazorpayRoute.SignedFields | src/app/api/razorpay/route.js:17-21 | the verifier receives exactly the order id, payment id and signature of the body |
| RazorpayRoute.TryBlock | src/app/api/razorpay/route.js:11-30 | the `try` block returns 200 exactly on a true verdict and 400 "Invalid signature" exactly on a false one; a failed construction or a throwing verifier raises |
| RazorpayRoute.Handler | src/app/api/razorpay/route.js:4-36 | a non-POST request gets 405 with no body and no verifier call. A POST without a body escapes the handler. Otherwise the status is 200 exactly on a true verdict, 400 exactly on a false one, and 500 exactly when construction or verification throws. The verifier is called once, on the signed fields, whenever the client was constructed |
| RazorpayRoute.NonPostIgnoresVerifier | src/app/api/razorpay/route.js:5-7 | for a non-POST request the answer does not depend on the SDK or the verifier |
| RazorpayRoute.OnlySignedFieldsMatter | src/app/api/razorpay/route.js:9-21 | two bodies with the same signed fields get the same answer: `username` and `payerInfo` play no part |
| RazorpayRoute.ExceptionNeverSucceeds | src/app/api/razorpay/route.js:32-35 | after an exception the answer is 500 "Server error", never 200 |
| Checkout.ConfirmationRequest | src/app/components/PaymentPage.js:100-110 | the page always POSTs, with a body whose signed fields are the checkout's order id, payment id and signature |
| Checkout.PageReply | src/app/components/PaymentPage.js:112 | `json()` of a response with a JSON body gives its `success` and `message`; without one the reply cannot be read |
| Checkout.Dispatch | src/app/api/razorpay/route.js:4 | a method the route module does not export by name gets 405 with no body and no call to `handler` |
| Checkout.AsWrittenConfirmationFails | src/app/api/razorpay/route.js:4 | with the module as written (no named `POST`), every confirmation reply is unreadable and the page shows "Payment verification failed" |
| Checkout.IntendedDispatchIsHandler | src/app/api/razorpay/route.js:4-36 | served as a pages-directory API route, routing equals `handler` for every request |
| Checkout.ConfirmationRoundTrip | src/app/components/PaymentPage.js:98-125 | for the page's own request routed to `handler` as a pages-directory API route, the payment is confirmed exactly when the verifier accepts the checkout's triple. A rejected signature shows "Invalid signature", and an exception shows "Server error" |
| Checkout.ConfirmPayment | src/app/components/PaymentPage.js:98-125 | with `handler` reached, the form is emptied exactly when the verifier accepted the signature. Then `currentUser`, `payments` and the toasts are those of the reload. A rejected signature leaves the whole state unchanged and shows "Invalid signature". An exception leaves it unchanged and shows "Server error" |

## Left out

- The HMAC-SHA256 computation and its comparison happen inside the Razorpay SDK, which is not part of this model. The verifier is an uninterpreted function, and whether constructing the SDK client throws is an input flag.
- Saving the payment and idempotency by payment id: the endpoint writes nothing (route.js lines 27-28 are a comment), so the model has no ledger.
- `initiate`, `fetchUser` and `fetchPayments` live in `src/actions/userActions`, which is not part of this model. `pay` ends at the call to `initiate`. The fetch results are inputs of `GetData` and `OnVerificationReply`.
- The rest of `pay`'s success path is not modelled: the Razorpay checkout widget, its `payment.failed` toast, and the "Payment initiation failed" catch (PaymentPage.js lines 88-97 and 126-145). All of these follow external calls.
- `router.push` after a confirmed payment (PaymentPage.js line 117) changes the `updated` search parameter. The effect at lines 66-68 then runs `getData` a second time, which may replace `currentUser` and `payments` again and may show a second "Failed to load data" toast. The model leaves this second reload to a later `GetData` call.
- `document.title`, focusing the name input, the `setTimeout` loader and the toast styling are display effects. Toasts are returned as values.
- React's asynchronous, batched state updates and the interleaving of `getData` with a pending reply are not modelled. Each method is one atomic update.
- Numbers.ToNumber: covers the empty string and an optional sign, digits and a fraction (their values are stated by ToNumberDecimal, ToNumberNegated and ToNumberPlus). It reads exponent notation, surrounding whitespace, hexadecimal and `Infinity` as `NaN`, whereas JavaScript's `Number` accepts them. Values are exact, so the rounding of a decimal string to the nearest double is not modelled: `"0.99999999999999999"` reads as 1 in JavaScript, so `pay` gets 100 and proceeds, but here it is just below 1 and is refused.
- Numbers.Times100: multiplies exact reals. IEEE-754 rounding of `amount * 100` (for example `0.29 * 100`) is not modelled.
- PaymentPage.TotalRaisedAppend: stored amounts are unbounded integers. Floating-point addition and non-numeric stored amounts are not modelled.
- A `null` request body makes the destructuring at route.js line 9 throw outside the `try`. The model reports this as `Uncaught` and does not model the framework's own answer.
- Strings are sequences of Unicode scalar values, whereas JavaScript strings are sequences of UTF-16 code units. Removal is unaffected, since `<` and `>` are ASCII, but SanitizeShorter counts code points rather than code units.
- Checkout.ConfirmationRoundTrip and Checkout.ConfirmPayment assume the endpoint is routed to `handler` (`ExportsIntended`). As written it is not; see "## Findings".
- `src/db/connectDB.js` (connection caching), `src/models/User.js` (a schema with no logic), the login flow, the dashboard, the navigation bar, the footer and the landing page are rendering or I/O.

## Findings

| source | as written | input that shows it | evidently intended | confidence | as-written member | corrected member |
|---|---|---|---|---|---|---|
| src/app/api/razorpay/route.js:4 | The file sits under `src/app` (app-directory routing) but exports only a default `handler(req, res)` in the pages-router style, with no named `POST`. The route beside it exports `export { handler as GET, handler as POST }` (src/app/api/auth/[...nextauth]/route.js:162). A POST to `/api/razorpay` is therefore answered 405 with no body, and `handler` never runs | any confirmation the page posts after checkout: the reply has no JSON, `json()` throws, and the page shows "Payment verification failed" even for a valid signature | the file is served as the pages-directory API route its first line names (`pages/api/razorpay.js`), so the page's POST reaches `handler` and the payment is confirmed exactly when the signature verifies. Exporting `handler` as `POST` in place would not do: a named export there receives a Web `Request` and no `res`, so the handler would also need rewriting | medium; not executed | Checkout.AsWrittenConfirmationFails | Checkout.ConfirmationRoundTrip |
