# Point-of-sale pricing and password-reset tokens, in Dafny

This project models two pieces of a point-of-sale and pharmacy management
application.

**`Pricing`** (`pricing.dfy`) is the till's pricing pipeline. It covers:
- the discount rate of a tier: Senior and PWD 20%, Employee 10%, a caller-given Custom percent, anything else 0;
- the per-line discount;
- the cart subtotal and the summed discount;
- VAT of 12% on the discounted subtotal and the grand total;
- the per-line copies annotated with their discount.

Everything is a pure function of its inputs. Money is an exact `real`.
The lemmas prove:
- the breakdown identities;
- that summing per-line discounts equals discounting the subtotal;
- that subtotal and discount distribute over concatenation, and the subtotal ignores line order;
- the sign and bound guarantees when the rate is a proper fraction;
- that nothing is clamped: a Custom percent above 100 discounts more than the subtotal and makes the total negative;
- the two worked receipts.

**`PasswordReset`** (`password_reset.dfy`) is the authentication controller's
in-memory reset-token store. It maps an employee id to the last six-digit
token and its expiry. `ResetTokenStore` is a class with a `map` field. Three
handler methods change it:
- forgot-password stores a token valid for 15 minutes, replacing any earlier one;
- verify-token checks a token and drops it once it is strictly past its expiry;
- reset-password checks only that the token is present and equal, then consumes it after the password update succeeds.

Each handler states its whole new map, its reply, and that no other employee's entry changes. The token
generator is proved to yield six decimal digits whose value is
`floor(100000 + r * 900000)`. Scenario methods then run request sequences
against fresh stores and state what each request answers. They show that expiry
is enforced only by verify-token, that a verified token is not consumed, and
that a failed update keeps the token.

Two details of the discount code shape every result:
- `getDiscountRate` returns `customValue / 100` unchanged, so a negative
  Custom percent gives a negative rate (`Pricing.DiscountRate` states
  exactly when).
- `calculateItemDiscount` ignores a Custom percent that is missing, zero or
  negative (`Pricing.ItemPercentage`).

So the per-line discount, the summed discount and the totals never use a
negative rate, whatever `getDiscountRate` returns.

## Model

| member | source | states |
|---|---|---|
| Pricing.DiscountRate | src/utils/calculations.ts:15-27 | Senior and PWD give 0.20, Employee 0.10, Custom the percent over 100 (missing counts as 0), any other tag 0; the rate lies in [0,1] exactly when the tier is not Custom or the percent is in 0..100, and is negative exactly for a negative Custom percent |
| Pricing.ItemPercentage | src/utils/calculations.ts:37-54 | the per-line percentage is never negative; it equals `DiscountRate` with a negative rate replaced by 0; it is at most 1 exactly when the tier is not Custom or the percent is at most 100 |
| Pricing.ItemDiscount | src/utils/calculations.ts:35-57 | an unrecognised tag, or a Custom percent that is missing, zero or negative, gives a zero line discount |
| Pricing.ItemDiscountUsesRate | src/utils/calculations.ts:35-57 | a line discount is the line amount times the per-line percentage, and equals amount × `DiscountRate` whenever that rate is non-negative |
| Pricing.ItemDiscountNonNegative | src/utils/calculations.ts:47-56 | a line with a non-negative amount never gets a negative discount, for any tier and any Custom value |
| Pricing.ItemDiscountAtMostAmount | src/utils/calculations.ts:35-57 | with a rate in [0,1] a line's discount does not exceed its amount |
| Pricing.Subtotal | src/utils/calculations.ts:30-32 | the empty cart has subtotal 0 (left fold of price × quantity) |
| Pricing.SubtotalAppend | src/utils/calculations.ts:30-32 | subtotal(a + b) = subtotal(a) + subtotal(b) |
| Pricing.SubtotalPermutation | src/utils/calculations.ts:30-32 | two carts holding the same lines in any order have the same subtotal |
| Pricing.NonNegativeLines | src/utils/calculations.ts:31 | non-negative prices and quantities give non-negative line amounts |
| Pricing.SubtotalNonNegative | src/utils/calculations.ts:30-32 | non-negative line amounts give a non-negative subtotal |
| Pricing.Discount | src/utils/calculations.ts:60-64 | the empty cart has discount 0 (left fold of the per-line discounts) |
| Pricing.DiscountIsScaledSubtotal | src/utils/calculations.ts:60-64 | the summed per-line discount equals the subtotal times the per-line percentage |
| Pricing.DiscountAppend | src/utils/calculations.ts:60-64 | discount(a + b) = discount(a) + discount(b) |
| Pricing.DiscountWithinSubtotal | src/utils/calculations.ts:60-64 | with a non-negative subtotal and a percentage of at most 1, 0 ≤ discount ≤ subtotal |
| Pricing.DiscountBeyondSubtotal | src/utils/calculations.ts:47-50 | with a positive subtotal and a percentage above 1, the discount exceeds the subtotal |
| Pricing.Vat | src/utils/calculations.ts:67-69 | amount + VAT = amount × 1.12, and the VAT is non-negative exactly when the amount is |
| Pricing.WithDiscounts | src/utils/calculations.ts:77-80 | the annotated copy has the input's length; each entry carries its input line unchanged and that line's `ItemDiscount` |
| Pricing.SumAmountsOfAnnotated | src/utils/calculations.ts:82-85 | summing price × quantity over the annotated copies gives the subtotal of the original cart |
| Pricing.SumDiscountsOfAnnotated | src/utils/calculations.ts:87-90 | summing the discounts written on the copies gives the cart discount |
| Pricing.CalculateTotals | src/utils/calculations.ts:72-104 | items keep length and order, each with its own line discount; subtotal and discountAmount equal the cart's `Subtotal` and `Discount`; discountedSubtotal = subtotal − discountAmount; vat = `Vat(discountedSubtotal)`; total = discountedSubtotal + vat = discountedSubtotal × 1.12 |
| Pricing.TotalClosedForm | src/utils/calculations.ts:92-94 | discountAmount = s × rate, discountedSubtotal = s × (1 − rate), total = s × (1 − rate) × 1.12, where s is the subtotal and rate the per-line percentage |
| Pricing.TotalsNonNegative | src/utils/calculations.ts:72-104 | with non-negative prices and quantities and a Custom percent of at most 100, 0 ≤ discountAmount ≤ subtotal and the discounted subtotal and total are non-negative |
| Pricing.CustomAboveHundredOverDiscounts | src/utils/calculations.ts:47-50 | nothing clamps a Custom percent: above 100, on a positive subtotal, the discount exceeds the subtotal and the discounted subtotal and total are negative |
| Pricing.NoDiscountTotal | src/utils/calculations.ts:52-53 | an unrecognised tier gives no discount and a total of subtotal × 1.12, whatever Custom value is passed along |
| Pricing.EmptyCart | src/utils/calculations.ts:72-104 | an empty cart totals to zero in every field, with no items |
| Pricing.WorkedExamples | src/utils/calculations.ts:72-104 | lines 100 × 2 and 50 × 1: Senior gives 250 / 50 / 200 / 24 / 224; Custom 10 gives discount 25, discounted 225, VAT 27, total 252 |
| PasswordReset.DecimalString | backend/controller/auth.controller.js:139 | a number's decimal rendering is non-empty and all digits |
| PasswordReset.DecimalRoundTrip | backend/controller/auth.controller.js:139 | reading a rendered number back gives the number |
| PasswordReset.DecimalLength | backend/controller/auth.controller.js:139 | a number with k digits renders to exactly k characters |
| PasswordReset.TokenNumber | backend/controller/auth.controller.js:139 | for r in [0,1), floor(100000 + r × 900000) lies in 100000..999999 |
| PasswordReset.GenerateResetToken | backend/controller/auth.controller.js:138-140 | the token is six decimal digits with a non-zero lead, and its value is floor(100000 + r × 900000) |
| PasswordReset.ResetTokenStore.constructor | backend/controller/auth.controller.js:143 | the store starts empty |
| PasswordReset.ResetTokenStore.ForgotPassword | backend/controller/auth.controller.js:145-185 | the map changes only when the lookup found the user, and then `employee_id` is set to a fresh token expiring now + 900000, replacing any earlier entry; a failed query or missing user leaves it unchanged; the reply is 500, 404, or 200 (500 if the mail fails, the new token staying stored); other keys untouched |
| PasswordReset.ResetTokenStore.VerifyResetToken | backend/controller/auth.controller.js:187-210 | no entry or a different token: invalid, map unchanged; a matching token with now > expiry: entry deleted, expired; with now ≤ expiry: verified, map unchanged; only a well-formed six-digit token can verify; other keys untouched |
| PasswordReset.ResetTokenStore.ResetPassword | backend/controller/auth.controller.js:212-247 | no entry or a different token: invalid, map unchanged; expiry is not looked at; a matching token with a successful update: entry deleted, changed; a failed update: server error, entry kept; only a well-formed six-digit token can change a password; other keys untouched |
| PasswordReset.ExpiryEnforcedOnlyByVerify | backend/controller/auth.controller.js:215-221 | a reset after the expiry still succeeds when nothing verified the token; once a late verify has dropped it, the same reset is rejected |
| PasswordReset.TokenLifecycle | backend/controller/auth.controller.js:198-209 | a token verifies at its exact expiry instant, verifies again (not consumed), resets the password, and is then gone |
| PasswordReset.NewRequestReplacesToken | backend/controller/auth.controller.js:166-169 | after a second forgot-password request the first token is rejected and the second verifies |
| PasswordReset.FailuresKeepOrStoreNothing | backend/controller/auth.controller.js:223-246 | a failed password update keeps the token so a retry succeeds; an unknown user stores nothing, so a later reset is rejected |

## Left out

- Floating point: money is an exact `real`. IEEE-754 rounding, drift between the
  two ways of summing, and NaN or infinite inputs are not modelled.
- Pricing.OrZero: JavaScript's `customValue || 0` also maps `NaN` to 0. Here
  the only falsy value an `Option<real>` can hold is the missing one. A
  present 0 behaves the same either way.
- `item.discount || 0` in the discount reduction is the identity on reals, so
  the model sums the discounts directly.
- The item copy `{ ...item, discount }` is a pair of the untouched line and its
  discount. The rest of the line is an opaque payload, and the `CartItem` and
  `DiscountType` type files are not part of this model.
- Tiers are a closed datatype. Every tag the code does not name is `Other`.
- `Math.random()` is the parameter `r` in [0, 1). `Date.now()` is the parameter
  `now` in milliseconds. The outcome of the user lookup query is a `Lookup`
  parameter. Whether the e-mail was sent and whether the bcrypt hash and the
  password update succeeded are `bool` parameters.
- SQL, bcrypt, JWT and the e-mail content are not modelled, and neither are
  the HTTP reply bodies beyond their kind and status.
- The `pmsLogin` and `posLogin` handlers are not modelled: they are SQL lookups,
  password comparison, token signing and session transactions.
- Concurrency: each handler is one atomic step. The interleaving of
  concurrent `async` requests on the shared map is not modelled.
- Tokens are compared as strings, as the code does. The request body's
  `token` is any string.
- Employee ids are modelled as strings. A JavaScript `Map` keeps a numeric
  `employee_id` and the same digits sent as a string as two separate keys;
  the model has only the string form.
- The dashboard controller, the manager route table, the database pool setup
  and the route wiring are not part of this model: they are read-only
  queries, user-interface configuration and framework glue.
