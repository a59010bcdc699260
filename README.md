# Futsal booking backend: customer and password-reset handlers

A Dafny model of the request-handling logic of a futsal-field booking service:
the customer handlers (profile, field browsing, booking creation, listing,
detail, cancellation, dashboard) and the password-reset handlers (request a
link, check a token, set a new password).

- `options.dfy`, module `Options`: the optional value used for absent request
  properties and nullable columns.
- `text.dfy`, module `Text`: JavaScript truthiness of a request string,
  `a || b` defaulting, `toLowerCase` (ASCII letters) and `includes`.
- `lists.dfy`, module `Lists`: `filter`, a stable insertion sort by an integer
  key, `slice`, `Math.ceil` division and the page arithmetic of the list
  handlers.
- `customer_controller.dfy`, module `CustomerController`: every customer
  handler as a pure function. Each one maps the caller, the request, a store
  snapshot and the answers of the model calls it makes to a `Reply`.
  `UpdateCustomerProfile` and `CancelCustomerBooking` also return the new
  store. `CreateCustomerBooking` returns the row it hands to `createBooking`;
  the insert itself is not modelled.
- `password_reset_controller.dfy`, module `PasswordResetController`: a class
  `ResetStore` that holds the users table, the reset-token table and the mails
  handed to the mail service. The two writing handlers are methods that update
  these fields step by step. Every refusal leaves the store unchanged. The one
  exception is a failed mail delivery, which comes after the token is stored
  and the mail is handed over, so both are kept. Token checking is a
  read-only function.

Calls into code that is not part of this model become parameters or plain
store operations:

- The booking model's conflict check becomes a `ConflictReport` argument.
- The user, field and booking lookups (`getUserById`, `getFieldById`,
  `getBookingById`) become map lookups.
- `createBooking` is not modelled: the row handed to it becomes the reply's
  `NewBooking`, and no bookings table receives it.
- The user-profile update becomes a map update.
- The available-field list, the caller's bookings and a booking's payments
  become sequence arguments.
- The rate-limit check becomes a `withinRateLimit` flag.
- The freshly drawn reset token becomes a string argument.
- The mail service's answer becomes a `delivered` flag.
- bcrypt becomes a `hash` function argument.
- The clock becomes `now` (epoch milliseconds), `today` (a day number) and
  `weekday` (0 is Sunday).

The token model's `validatePasswordResetToken` is not shown. `Validate` assumes
these rules:

- an unknown token is refused;
- then a token past `expires_at` (`now > expires_at`) is refused as expired;
- then a used token is refused as used;
- otherwise the token is valid, and its user's name is joined in when the user
  row exists.

An unknown address gets the same status (200) and `success` flag as a
delivered link (`UnknownEmailIndistinguishable`). It does not get the same
reply: the message text differs and only the delivered link carries `data`.
So a caller that reads the message can still tell the two cases apart.

## Model

| member | source | states |
|---|---|---|
| `Text.OrElse` | controllers/customer/customerController.js:170 | the request's email when it is given and non-empty, the caller's otherwise |
| `Text.Lower` | controllers/customer/customerController.js:88-89 | lower-casing keeps the length; each upper-case ASCII letter becomes its lower-case letter, every other character is kept, and no upper-case ASCII letter is left |
| `Text.LowerIdempotent` | controllers/customer/customerController.js:88-89 | lower-casing twice is lower-casing once |
| `Text.IncludesOccurs` | controllers/customer/customerController.js:88-89 | the `includes` scan holds exactly when the needle occurs at some offset of the haystack |
| `Text.QueryCaseIrrelevant` | controllers/customer/customerController.js:97-100 | the case-insensitive match gives the same answer whatever the case of the query |
| `Lists.Filter` | controllers/customer/customerController.js:86-101 | a filtered list is no longer than the input and holds exactly the input elements that satisfy the predicate |
| `Lists.FilterMultiplicity` | controllers/customer/customerController.js:86-101 | the filter keeps each element that satisfies the predicate as many times as the input holds it, and no other element |
| `Lists.FilterAppend` | controllers/customer/customerController.js:86-101 | filtering a concatenation is the concatenation of the filtered parts, so the kept elements stay in input order |
| `Lists.FilterFilter` | controllers/customer/customerController.js:86-101 | filtering by one predicate and then by another is filtering once by a predicate that holds where both do |
| `Lists.FilterKeepsAll` | controllers/customer/customerController.js:86-101 | a filter that every element passes returns the list unchanged, so a skipped filter is the same as one that keeps everything |
| `Lists.FilterLengthIsCount` | controllers/customer/customerController.js:329-330 | the length of a filtered list is the number of elements satisfying the predicate, counted one by one |
| `Lists.FilterPermutation` | controllers/customer/customerController.js:341-342 | two orderings of the same elements keep, under one filter, the same elements and as many of them |
| `Lists.DisjointFiltersBound` | controllers/customer/customerController.js:329-330 | two filters whose predicates exclude each other keep at most as many elements as the list has |
| `Lists.Insert` | controllers/customer/customerController.js:337 | inserting into a sorted list keeps it sorted and adds exactly that element |
| `Lists.SortBy` | controllers/customer/customerController.js:337 | the sort returns a permutation of its input, ascending by key |
| `Lists.Take` | controllers/customer/customerController.js:338 | `slice(0, n)` has `min(n, length)` elements, the first ones of the list |
| `Lists.PrefixHoldsSmallestKeys` | controllers/customer/customerController.js:336-338 | an element left out of the first `n` of a sorted list has a key no smaller than any kept element |
| `Lists.SmallestBy` | controllers/customer/customerController.js:336-338 | sort-then-slice keeps `min(n, length)` elements, a sub-multiset of the input, in ascending key order; every element left out has a key no smaller than any kept one; when fewer than `n` are kept, nothing is left out |
| `Lists.Slice` | controllers/customer/customerController.js:105 | `slice(start, end)` is the window of the list from `start`, clamped to its end, and is empty past the end |
| `Lists.CeilDiv` | controllers/customer/customerController.js:114 | `Math.ceil(n / d)` is the least page count `q` with `(q - 1) * d < n <= q * d` |
| `Lists.Paginate` | controllers/customer/customerController.js:103-114 | for page and limit of at least 1: the page has at most `limit` items; item `k` is item `(page - 1) * limit + k` of the list; the page is full unless it reaches the list's end; `total` is the list length; `total_pages` is the ceiling of `total / limit` |
| `Lists.PageHoldsListItems` | controllers/customer/customerController.js:103-105 | a page shows only items of the list it was cut from |
| `Lists.EveryItemOnItsPage` | controllers/customer/customerController.js:103-105 | every item `i` appears on page `i / limit + 1`, at position `i % limit`, and that page is at most `total_pages` |
| `Lists.PagePastLastIsEmpty` | controllers/customer/customerController.js:103-105 | a page number beyond `total_pages` yields no items |
| `CustomerController.GetCustomerProfile` | controllers/customer/customerController.js:29-40 | an unknown caller gets 404; otherwise 200 with every column of the caller's row except the password |
| `CustomerController.ProfileHidesPassword` | controllers/customer/customerController.js:37 | the profile reply is the same whatever the stored password is |
| `CustomerController.UpdateCustomerProfile` | controllers/customer/customerController.js:42-78 | none of name, email, phone given: 400 with the store unchanged; an unknown caller: 404, unchanged; otherwise 200, and only the caller's row changes: each supplied column takes the supplied value, each absent one is kept, and id, password, active flag and creation time are kept |
| `CustomerController.FilterFields` | controllers/customer/customerController.js:86-101 | the three successive filters, each made only when its criterion is given, equal one filter by the whole query; so a field is kept exactly when it matches all the given criteria (search in name or description ignoring case, exact type, location ignoring case), as many times as it is listed, in list order |
| `CustomerController.GetCustomerFields` | controllers/customer/customerController.js:80-116 | 200; an absent page is 1 and an absent limit 10; the page is exactly the window of that page of the matching fields; at most `limit` fields, each an available field matching the query; `total` counts every matching field and `total_pages` is the ceiling of `total / limit` |
| `CustomerController.BaseAmount` | controllers/customer/customerController.js:158-159 | on day 0 or 6 with a non-zero weekend rate the rate is the weekend rate; otherwise it is the weekday price |
| `CustomerController.CreateCustomerBooking` | controllers/customer/customerController.js:126-189 | missing field_id, date, start_time, end_time, name or phone: 400; then a missing or inactive field: 404; then a reported conflict: 400 with exactly the reported conflicts; otherwise 201, and the new booking belongs to the caller, carries the requested field, date, start and end times, name and phone, has the base amount for its day, an admin fee of 5000, the request's email or else the caller's, and the request's notes |
| `CustomerController.UnavailableFieldIgnoresConflict` | controllers/customer/customerController.js:140-149 | when the field is missing or inactive, the reply does not depend on the conflict check's answer |
| `CustomerController.SaturdayPricing` | controllers/customer/customerController.js:158-160 | a Saturday booking of a field priced 100000, or 150000 at weekends, has base 150000 and base plus fee 155000 |
| `CustomerController.FilterByStatus` | controllers/customer/customerController.js:198-200 | with a status query, exactly the bookings with that status are kept; without one, the list is unchanged |
| `CustomerController.GetCustomerBookings` | controllers/customer/customerController.js:191-215 | 200; an absent page is 1 and an absent limit 10; the page is exactly the window of that page of the caller's bookings with the queried status; at most `limit` of them; `total` and `total_pages` follow the filtered list |
| `CustomerController.OwnedBooking` | controllers/customer/customerController.js:267-278 | an unknown booking gives 404; a booking of another user gives 403; otherwise the stored booking |
| `CustomerController.GetCustomerBookingDetail` | controllers/customer/customerController.js:225-259 | the same 404 and 403 refusals, with their status codes; otherwise 200 with the booking and its payments |
| `CustomerController.TooLateInMilliseconds` | controllers/customer/customerController.js:287-292 | the check "fewer than 2 hours left" by real division is the check "fewer than 7,200,000 ms left" |
| `CustomerController.CancelCustomerBooking` | controllers/customer/customerController.js:261-317 | the checks run in order: 404 if unknown, 403 if not the caller's, 400 if not pending, 400 if fewer than two hours remain; every refusal leaves the store unchanged; success sets only that booking to cancelled, with the given reason or "Cancelled by customer" |
| `CustomerController.CancellationBoundary` | controllers/customer/customerController.js:289-296 | exactly two hours before the start the cancellation succeeds; at 1:59:59 before it, the reply is 400 |
| `CustomerController.CancellationIsFinal` | controllers/customer/customerController.js:280-284 | after a successful cancellation, a second one is refused with 400 and changes nothing |
| `CustomerController.SpendCountsCompletedOnly` | controllers/customer/customerController.js:331-333 | summing the amounts of the completed bookings equals one pass over all bookings that counts only the completed ones |
| `CustomerController.SumAppend` | controllers/customer/customerController.js:333 | the amount sum of two lists joined is the sum of their sums |
| `CustomerController.SpendBounded` | controllers/customer/customerController.js:331-333 | with non-negative amounts, total spent lies between 0 and the sum of all amounts |
| `CustomerController.BookingStatistics` | controllers/customer/customerController.js:328-333 | total is the number of bookings; completed and cancelled are the numbers of bookings with those statuses, and together never exceed the total; total spent is the amount of the completed bookings |
| `CustomerController.RecentBookings` | controllers/customer/customerController.js:336-338 | `min(5, n)` of the bookings, a sub-multiset of them, newest first; no booking left out is newer than one shown |
| `CustomerController.UpcomingBookings` | controllers/customer/customerController.js:341-345 | `min(5, q)` bookings, where `q` is the number that are confirmed and dated today or later; a sub-multiset of those, by ascending date; no qualifying booking left out has an earlier date than one shown; fewer than 5 means all qualifying bookings are shown |
| `CustomerController.GetCustomerDashboard` | controllers/customer/customerController.js:320-374 | 200 with the caller's info; the statistics with the completed and cancelled counts and the completed spend; the recent list and the upcoming list with every clause above, stated over all of the caller's bookings; and no favourite fields |
| `PasswordResetController.UnknownEmailIndistinguishable` | controllers/auth/passwordResetController.js:27-33 | the reply to an unknown address has the status and `success` flag of a delivered link, and unlike an inactive account's refusal it reports success |
| `PasswordResetController.FindUserByEmail` | controllers/auth/passwordResetController.js:24-35 | no user is found exactly when no row has the address; a found user is a row with that address |
| `PasswordResetController.NameOfUser` | controllers/auth/passwordResetController.js:126 | the name is absent exactly when no row has the id; otherwise it is the name of a row with that id |
| `PasswordResetController.SetPassword` | controllers/auth/passwordResetController.js:183-190 | the update sets the password of the rows with that id to the hash and their `updated_at` to the current instant, and changes nothing else |
| `PasswordResetController.SetPasswordChangesOneRow` | controllers/auth/passwordResetController.js:183-190 | with unique user ids, the update of an existing user's password changes that one row, its password and `updated_at` only, and leaves every other row as it was |
| `PasswordResetController.Validate` | controllers/auth/passwordResetController.js:112-119 | a token is valid exactly when it is known, not expired and unused; the refusal names the first failed check in that order; a valid token yields its email, user id, expiry and user name |
| `PasswordResetController.ExpiresAnHourAfterIssue` | controllers/auth/passwordResetController.js:112-119 | when every token expires one hour after issue, a token is refused as expired exactly when more than an hour has passed since it was issued |
| `PasswordResetController.UsedTokenNeverValid` | controllers/auth/passwordResetController.js:167-174 | a used token is refused at every instant: as expired after its expiry, as used before it |
| `PasswordResetController.ValidationIsStable` | controllers/auth/passwordResetController.js:112-119 | the verdict on a token does not depend on the other tokens in the table |
| `PasswordResetController.ResetInputCheck` | controllers/auth/passwordResetController.js:145-164 | the inputs pass exactly when all three are given, the passwords are equal and at least 6 characters long; otherwise the first failed check in that order gives a 400 refusal |
| `PasswordResetController.ResetStore.RequestPasswordReset` | controllers/auth/passwordResetController.js:12-98 | no email: 400; unknown email: generic success; inactive: 400; rate-limited: 429; none of these creates a token or sends a mail; otherwise one token is stored (unused, expiring one hour after `now`) and one mail is sent, and the reply is success only if delivery succeeded, else 500 with the token kept |
| `PasswordResetController.ResetStore.ValidateResetToken` | controllers/auth/passwordResetController.js:101-138 | no token: 400; the token is accepted exactly when the stored token is valid, and the reply gives its email, user name and expiry; otherwise 400 with the validator's error; in a store whose tokens last one hour, a known token is refused as expired exactly when more than an hour has passed since its issue |
| `PasswordResetController.ResetStore.ResetPassword` | controllers/auth/passwordResetController.js:141-218 | the input checks come first, then the token check, then the user update; only the full success changes the store, setting the password of exactly one user row to the hash of the new one and its `updated_at` to `now`, and marking the token used; no mail is sent |
| `PasswordResetController.ResetTwice` | controllers/auth/passwordResetController.js:167-200 | request, check and reset with one token succeed and store the hash and the reset's instant; a second reset with the same token is refused as used |
| `PasswordResetController.ExpiredAfterAnHour` | controllers/auth/passwordResetController.js:112-119 | an hour and a millisecond after issue the token is refused as expired |

## Left out

- Database, bcrypt, mail and HTTP failures that throw into the `catch` blocks (the 500 replies "Failed to …") are not modelled. Every store call here succeeds.
- The model functions outside this model become arguments, map operations or assumed rules, as listed above:
  - `getUserById`, `getFieldById`, `checkBookingConflict`, `updateBookingStatus`, `getBookingById` and `getBookingsByUserId`;
  - `getAvailableFields`, `getPaymentsByBookingId` and `updateUserProfile`;
  - `checkRecentPasswordResetAttempts`, `createPasswordResetToken` and `markPasswordResetAsUsed`;
  - `validatePasswordResetToken` is replaced by the assumed rules of `Validate`;
  - `createBooking` is not modelled: the reply carries the row handed to it, and no bookings table is written.
- Their internals are not modelled: interval overlap, the rate-limit threshold and window, and token generation.
- `CustomerController.UpdateCustomerProfile`: what `updateUserProfile` does with the columns it is not given is not shown. The model keeps a column the request leaves absent and writes one the request supplies, even as "".
- `CustomerController.CreateCustomerBooking`: the reply carries the row handed to `createBooking`, not the stored row. The booking model derives the id, `total_amount` and the initial status, and those are outside this model.
- A `field_id` sent as a string rather than a number is not modelled. Only a numeric 0 counts as absent.
- JavaScript `Date` parsing and time zones are not modelled:
  - the weekday of the booking date is the `weekday` argument;
  - a booking's start instant is `startAt`, and None stands for a date that does not parse (then the two-hour check passes, as `NaN < 2` is false);
  - booking dates and "today" are day numbers compared as integers.
- Amounts are integers: `parseFloat` and floating-point sums are not modelled. A weekend price of 0 counts as unset, as JavaScript's truthiness has it.
- An absent page or limit takes its default (1 and 10); a given one must be at least 1. String-to-number coercion, a page or limit of 0, and `slice` with negative indices are not modelled.
- `Text.Lower`: only ASCII letters are lower-cased. `toLowerCase` also folds other Unicode letters.
- `PasswordResetController.ResetInputCheck`: length counts Unicode characters, not UTF-16 code units as JavaScript's `length` does.
- `Lists.SortBy`: the result is stated sorted and a permutation. Stability (ties keep their order) holds by construction but is not stated. So the order of upcoming bookings that share a date is not stated.
- A description or location that is null (where `toLowerCase` throws) is not modelled. These columns are strings here.
- Logging, the reset-link URL and the mail template are not modelled. A mail is recorded as its recipient and token.
- Races between the conflict check and the insert, and between token validation and marking it used, are not modelled. Each handler runs alone on the store.
- `PasswordResetController.SetPassword`: the database clock behind `NOW()` is the handler's `now`. The model does not capture that the two clocks can differ.
