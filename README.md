# Tanzia core, modelled in Dafny

Tanzia is a web application for condominium fees. Co-owners hold *tantiemes* (shares of the building). Each co-owner owes their share of every bill and is credited their share of every provision paid in. This project models the logic under `lib/` that does not depend on HTTP, SQL or Stripe plumbing, and proves properties about it:

- the login rate limiter: five failures inside a fifteen-minute window lock an identifier for fifteen minutes;
- the CSRF token manager, the guard in front of state-changing requests, and the get-or-create helper;
- the base64url token text (section 5 of RFC 4648), with a decoder, used to prove that encoding loses nothing;
- the balance arithmetic of a co-owner and the dashboard aggregation over the database rows;
- the free-tier gate that limits free users to 10 provisions, 5 bills and 5 persons;
- the password strength check and the legacy-password test;
- the e-mail syntax check and the order of the signup checks;
- the checkout and portal sessions, and what the Stripe webhook does to the users table.

Conventions:

- Time is an explicit `now` in nanoseconds, the unit of Go's `time.Duration`.
- Database reads, Stripe calls, the random source and the signature check appear as inputs holding their outcome (`Result`, `Option`, or a row lookup).
- Amounts are exact `real`s.
- Go's `len` on a string counts UTF-8 bytes; it is modelled by `Password.Utf8Len`.
- Neither the limiter nor the CSRF guard is wired into the login or signup handlers, so both are modelled on their own.

Files, one module each: `wrappers.dfy` (`Option`, `Result`), `rate_limiter.dfy`, `base64url.dfy`, `csrf.dfy`, `csrf_middleware.dfy`, `person.dfy`, `dashboard.dfy`, `premium_limiter.dfy`, `password.dfy`, `auth.dfy`, `stripe.dfy` (module `Billing`).

Two behaviours of the code are worth stating:

- The CSRF cookie is written with `HttpOnly: false`, so page scripts can read it. `Csrf.CSRFCookie` states this.
- Signup checks only the byte length of the password. It does not call the strength check, and it stores the password as typed. `Auth.WeakPasswordIsAccepted` states this.

## Model

| member | source | states |
|---|---|---|
| RateLimiting.LockoutRemaining | lib/helpers/rate_limiter.go:55-73 | never negative; zero without a record or without a lock; at most the lockout duration once the lock is in the past; exactly the lockout duration at the instant of locking |
| RateLimiting.Locked | lib/helpers/rate_limiter.go:37-53 | an identifier is locked exactly when its remaining lockout time is positive |
| RateLimiting.RemainingAttempts | lib/helpers/rate_limiter.go:112-130 | between 0 and 5; 5 without a record; 0 exactly when the window is still open and the count has reached the limit |
| RateLimiting.Fail | lib/helpers/rate_limiter.go:75-103 | a new record, or one whose window has expired, restarts at count 1 with no lock; inside the window the count goes up by one, the window start is kept, and a lock is reported exactly when the count reaches 5, leaving the identifier locked for the full duration with no attempts left; a failure that does not lock keeps the old lock |
| RateLimiting.Swept | lib/helpers/rate_limiter.go:139-145 | the sweep keeps exactly the records that are not reclaimable, unchanged |
| RateLimiting.UnknownIdentifier | lib/helpers/rate_limiter_test.go:8-22 | an unknown identifier is not locked, has 5 attempts left and no lockout time |
| RateLimiting.FailureAtOrPastLimitRelocks | lib/helpers/rate_limiter.go:95-100 | inside the window, every failure from the fifth on increments the count, restarts the lock at `now` and reports it |
| RateLimiting.FailureAfterWindowResets | lib/helpers/rate_limiter.go:88-93 | a failure after the window has expired starts a new window with count 1 and no lock, leaving 4 attempts |
| RateLimiting.WindowResetCutsLockShort | lib/helpers/rate_limiter.go:88-93 | some locked identifier becomes unlocked by one more failure, because the window reset clears a running lock |
| RateLimiting.LockedWithFullAllowance | lib/helpers/rate_limiter.go:112-130 | an identifier can be locked and still report all 5 attempts, because the attempt count ignores a lock once the window has expired |
| RateLimiting.FailKeepsOrdered | lib/helpers/rate_limiter.go:75-103 | with a clock that does not run back, a failure never sets a lock before the window it belongs to opened |
| RateLimiting.SweepUnobservable | lib/helpers/rate_limiter.go:132-148 | if every lock comes after its window opened, the sweep changes no answer of IsLocked, GetRemainingAttempts or GetLockoutRemaining |
| RateLimiting.Replay | lib/helpers/rate_limiter.go:75-103 | replaying a run of failures yields a record exactly when the run is non-empty |
| RateLimiting.ReplayWithinWindow | lib/helpers/rate_limiter.go:75-103 | k failures inside one window leave count k and the window opened by the first; the last one sets a lock and reports it exactly when k ≥ 5 |
| RateLimiting.FourFailuresLeaveOneAttempt | lib/helpers/rate_limiter_test.go:24-37 | four failures in the window each report no lock; the identifier is then unlocked with one attempt left |
| RateLimiting.FifthFailureLocks | lib/helpers/rate_limiter_test.go:38-50 | the fifth failure in the window reports the lock; the identifier is then locked, with 0 attempts and the full lockout left |
| RateLimiting.RateLimiter.constructor | lib/helpers/rate_limiter.go:27-35 | a new limiter holds no records |
| RateLimiting.RateLimiter.IsLocked | lib/helpers/rate_limiter.go:37-53 | answers `Locked` for the stored record, and only a recorded identifier is locked |
| RateLimiting.RateLimiter.GetLockoutRemaining | lib/helpers/rate_limiter.go:55-73 | answers `LockoutRemaining` for the stored record, positive exactly while locked |
| RateLimiting.RateLimiter.RecordFailedAttempt | lib/helpers/rate_limiter.go:75-103 | replaces only this identifier's record with the `Fail` step and returns whether it locked |
| RateLimiting.RateLimiter.ResetAttempts | lib/helpers/rate_limiter.go:105-110 | removes only this identifier's record; afterwards it has all 5 attempts at any time |
| RateLimiting.RateLimiter.GetRemainingAttempts | lib/helpers/rate_limiter.go:112-130 | answers `RemainingAttempts` for the stored record |
| RateLimiting.RateLimiter.Sweep | lib/helpers/rate_limiter.go:132-148 | the loop over the table leaves exactly `Swept` of the old table |
| Base64Url.Letter | lib/helpers/csrf.go:52 | every sextet encodes to a letter of the URL-safe alphabet |
| Base64Url.EncodeGroup | lib/helpers/csrf.go:52 | three bytes become four letters of the alphabet |
| Base64Url.Encode | lib/helpers/csrf.go:52 | the text is 4 characters for every started group of 3 bytes |
| Base64Url.EncodeIsUrlSafe | lib/helpers/csrf.go:52 | every character of an encoding is an alphabet letter or padding |
| Base64Url.GroupRoundTrip | lib/helpers/csrf.go:52 | decoding an encoded group gives its three bytes back |
| Base64Url.DecodeEncode | lib/helpers/csrf.go:52 | decoding an encoding gives the bytes back, for every length |
| Base64Url.EncodeInjective | lib/helpers/csrf.go:52 | distinct byte strings have distinct encodings |
| Csrf.GenerateCSRFToken | lib/helpers/csrf.go:47-53 | a random-source error is passed on; otherwise the token is 44 characters long and decodes back to the 32 random bytes |
| Csrf.TokenText | lib/helpers/csrf_test.go:10-28 | the text of 32 bytes is 44 characters long, non-empty, and decodes back to them |
| Csrf.DistinctEntropyDistinctTokens | lib/helpers/csrf_test.go:20-27 | different random bytes give different tokens |
| Csrf.Current | lib/helpers/csrf.go:95-109 | a non-empty answer is the stored token of a present, unexpired entry, and such an entry always gives its token |
| Csrf.Accepts | lib/helpers/csrf.go:72-86 | only a present, unexpired entry accepts; a non-empty candidate is accepted exactly when it equals the current token |
| Csrf.Unexpired | lib/helpers/csrf.go:157-161 | the sweep keeps exactly the unexpired entries, unchanged |
| Csrf.SweepUnobservable | lib/helpers/csrf.go:150-164 | the sweep changes no answer of ValidateToken or GetToken |
| Csrf.CSRFManager.constructor | lib/helpers/csrf.go:41-45 | a new manager holds no tokens |
| Csrf.CSRFManager.CreateToken | lib/helpers/csrf.go:55-70 | on error nothing changes; otherwise only this session's entry is replaced by the new token, which is then the only candidate accepted and the current token |
| Csrf.CSRFManager.ValidateToken | lib/helpers/csrf.go:72-86 | answers `Accepts` for the stored entry; a yes means the stored token is the candidate |
| Csrf.CSRFManager.InvalidateToken | lib/helpers/csrf.go:88-93 | removes only this session's entry; afterwards nothing validates and GetToken is "" at any time |
| Csrf.CSRFManager.GetToken | lib/helpers/csrf.go:95-109 | answers `Current`; "" exactly when the entry is missing or expired |
| Csrf.CSRFManager.Sweep | lib/helpers/csrf.go:150-164 | the loop leaves exactly `Unexpired` of the old table |
| Csrf.GetCSRFTokenFromRequest | lib/helpers/csrf.go:123-140 | a non-empty answer comes from the form field, the header or the cookie; an empty one means form field and header were both empty |
| Csrf.FormTakesPrecedence | lib/helpers/csrf.go:124-127 | a non-empty form field wins whatever the header and cookies hold |
| Csrf.HeaderBeatsCookie | lib/helpers/csrf.go:129-132 | without a form field, a non-empty header wins whatever the cookies hold |
| Csrf.CookieIsTheFallback | lib/helpers/csrf.go:134-139 | with neither form field nor header, the answer is the cookie's value, or "" without the cookie |
| Csrf.GetSessionIDFromRequest | lib/helpers/csrf.go:142-148 | the session cookie's value, or "" without it |
| Csrf.CSRFCookie | lib/helpers/csrf.go:111-121 | the cookie carries the token under its name, lives as long as the token, is Secure, SameSite=Strict, path "/", and is not HttpOnly |
| CsrfMiddleware.CSRFMiddleware | lib/helpers/csrf_middleware.go:8-37 | safe methods and requests without a session pass; every refusal is 403; a state-changing request with a session passes only with a token the manager accepts |
| CsrfMiddleware.CSRFProtect | lib/helpers/csrf_middleware.go:39-41 | decides exactly as CSRFMiddleware |
| CsrfMiddleware.SafeMethodsIgnoreManager | lib/helpers/csrf_middleware.go:10-13 | GET, HEAD and OPTIONS pass whatever the manager holds and whatever the time |
| CsrfMiddleware.MissingTokenRejected | lib/helpers/csrf_middleware.go:21-26 | a state-changing request with a session and no token gets 403 "CSRF token required" |
| CsrfMiddleware.InvalidTokenRejected | lib/helpers/csrf_middleware.go:28-33 | a token the manager does not accept gets 403 "Invalid CSRF token" |
| CsrfMiddleware.NextIffTokenValidates | lib/helpers/csrf_middleware.go:21-35 | for a state-changing request with a session, the handler runs exactly when the submitted token validates |
| CsrfMiddleware.OtherSessionsTokenRejected | lib/helpers/csrf_test.go:47-49 | a token minted for another session is refused |
| CsrfMiddleware.EnsureCSRFToken | lib/helpers/csrf_middleware.go:43-64 | no session: "" and no change; an unexpired token is returned with no cookie and no change; otherwise a new token is stored, set as cookie and returned, or "" on a random-source error; afterwards the returned token is current |
| Persons.CalculateDue | lib/domains/person.go:64-66 | the due times the total tantiemes is the person's tantiemes times the bill |
| Persons.CalculateProvision | lib/domains/person.go:68-70 | the credit times the total tantiemes is the person's tantiemes times the provision |
| Persons.CalculateLeft | lib/domains/person.go:72-84 | the two loops compute credits minus dues, which is the person's share of (Σ provisions − Σ bills) |
| Persons.DuesAreProportional | lib/domains/person.go:75-77 | the sum of dues is the share times the sum of bills |
| Persons.CreditsAreProportional | lib/domains/person.go:79-81 | the sum of credits is the share times the sum of provisions |
| Persons.LeftIsProportional | lib/domains/person.go:64-84 | the balance is tantieme × (Σ provisions − Σ bills) / total |
| Persons.NothingLeftOfNothing | lib/domains/person.go:72-73 | no bills and no provisions give a balance of 0 |
| Persons.LeftIsAdditive | lib/domains/person.go:72-84 | the balance over two batches is the sum of the two balances |
| Persons.LeftIsLinear | lib/domains/person.go:64-84 | scaling every amount by k scales the balance by k |
| Persons.TwoFifthsOfAThousand | lib/domains/person_test.go:7-43 | 2 tantiemes of 5 owe 400 of a 1000 bill and are credited 400 of a 1000 provision |
| Persons.HalfShareExample | lib/domains/person_test.go:45-79 | 5 of 10 tantiemes, bills 1800 and 2600, provisions 2000 and 2200: a balance of −100 |
| Dashboard.FirstScanError | lib/domains/dashboard.go:50-57 | no scan error exactly when every row scans |
| Dashboard.Values | lib/domains/dashboard.go:55 | the scanned values, one per row, in row order |
| Dashboard.FirstErrorAt | lib/domains/dashboard.go:52-54 | the loop stops at the first failing row, with that row's error |
| Dashboard.ReadPersons | lib/domains/dashboard.go:44-60 | ends with the rows' error, or with all persons in order and the sum of their tantiemes |
| Dashboard.ReadBills | lib/domains/dashboard.go:62-72 | ends with the rows' error, or with all bills in order and their sum taken off the balance |
| Dashboard.ReadProvisions | lib/domains/dashboard.go:74-84 | ends with the rows' error, or with all provisions in order and their sum added to the balance |
| Dashboard.GetDashboardData | lib/domains/dashboard.go:20-100 | the first failing step's error with empty data; otherwise the rows in order, the tantieme total, balance Σ provisions − Σ bills, and premium only if the lookup succeeded and said so |
| Dashboard.SharesAddUp | lib/domains/person.go:64-70 | the persons' shares add up to their tantieme sum over the total |
| Dashboard.LeftsAddUp | lib/domains/person.go:72-84 | the sum of the balances is the sum of the shares times (Σ provisions − Σ bills) |
| Dashboard.SharesOfTheWhole | lib/domains/dashboard.go:48-57 | against their own total, the shares add up to 1 |
| Dashboard.BalanceIsConserved | lib/domains/dashboard.go:48-84 | with a non-zero total, the co-owners' balances add up to Σ provisions − Σ bills |
| Dashboard.DashboardBalanceIsConserved | lib/domains/dashboard.go:92-99 | for the data the dashboard returns, the balances add up to its global balance |
| PremiumLimiter.IsUserPremium | lib/helpers/premium_limiter.go:16-27 | the stored flag when the row exists; "user not found" without a row; a wrapped error when the query fails |
| PremiumLimiter.CanUserCreate | lib/helpers/premium_limiter.go:29-84 | allowed exactly for a premium user or a free user under the limit; the count is queried only for a free user; every error refuses and carries its wrapped message |
| PremiumLimiter.CanUserCreateProvision | lib/helpers/premium_limiter.go:29-46 | allowed exactly for a premium user or a free user with fewer than 10 provisions |
| PremiumLimiter.CanUserCreateBill | lib/helpers/premium_limiter.go:48-65 | allowed exactly for a premium user or a free user with fewer than 5 bills |
| PremiumLimiter.CanUserCreatePerson | lib/helpers/premium_limiter.go:67-84 | allowed exactly for a premium user or a free user with fewer than 5 persons |
| PremiumLimiter.PremiumAlwaysAllowed | lib/helpers/premium_limiter.go:34-36 | a premium user is allowed without a count query, whatever the count would say |
| PremiumLimiter.FreeUserLimit | lib/helpers/premium_limiter.go:45 | a free user is allowed under the limit and refused at it |
| PremiumLimiter.GateIsMonotone | lib/helpers/premium_limiter.go:45 | whatever is allowed at some count is allowed at every smaller count |
| PremiumLimiter.PremiumLookupFailureRefuses | lib/helpers/premium_limiter.go:30-33 | a failed premium lookup refuses with an error and no count query; a failed query's message is wrapped twice |
| PremiumLimiter.FreeTierLimits | lib/helpers/premium_limiter_test.go:328-338 | the limits are 10 provisions, 5 bills and 5 persons |
| Password.Utf8Width | lib/helpers/password.go:43 | one character takes 1 to 4 bytes, and 1 exactly when it is ASCII |
| Password.Utf8Len | lib/helpers/password.go:43 | the byte length lies between the character count and four times it |
| Password.AsciiUtf8Len | lib/helpers/password.go:43 | for ASCII text the byte length is the character count |
| Password.Utf8LenPermutation | lib/helpers/password.go:43 | the byte length depends only on the multiset of characters |
| Password.Strength | lib/helpers/password.go:42-71 | no error exactly when the password has 8 bytes and an upper-case letter, a lower-case letter and a digit; otherwise the first failed requirement in the order length, upper, lower, digit |
| Password.ValidatePasswordStrength | lib/helpers/password.go:42-71 | the flag loop returns the answer of `Strength` |
| Password.ShortIsTooShortWhateverItHolds | lib/helpers/password.go:43-45 | a password under 8 bytes is too short whatever it contains |
| Password.OrderDoesNotMatter | lib/helpers/password.go:47-58 | rearranging the characters does not change the verdict |
| Password.TooShortExample | lib/helpers/password_test.go:41 | "short" is too short |
| Password.MissingClassExamples | lib/helpers/password_test.go:42-44 | each test password missing one class is refused for that class |
| Password.ValidExamples | lib/helpers/password_test.go:45-46 | "ValidPass1" and "Another$Valid2" are accepted |
| Password.IsLegacyPassword | lib/helpers/password.go:75-87 | not legacy exactly when 60 bytes long with a `$2a$`, `$2b$` or `$2y$` prefix; any other length is legacy |
| Password.HashShapes | lib/helpers/password_test.go:64-67 | 60 ASCII characters are a hash behind a bcrypt prefix and plaintext behind any other |
| Password.LegacyExamples | lib/helpers/password_test.go:62-63 | "plaintext" and "short" are legacy |
| Auth.IndexOf | lib/domains/auth.go:157-161 | the first position of a character, or -1 when absent |
| Auth.LastIndexOf | lib/domains/auth.go:157-161 | the last position of a character, or -1 when absent |
| Auth.IsValidEmail | lib/domains/auth.go:157-161 | the recogniser accepts exactly the strings that split as local "@" domain "." tld over the pattern's classes |
| Auth.EmailRecogniser | lib/domains/auth.go:158 | the first '@' and the last '.' are the only candidates for a split |
| Auth.SplitIsUnique | lib/domains/auth.go:158 | a string splits in at most one way |
| Auth.ExactlyOneAt | lib/domains/auth.go:158 | a valid address contains exactly one '@' |
| Auth.NoDotAfterAtIsInvalid | lib/domains/auth.go:158 | without a '.' after the '@' an address is invalid |
| Auth.OneLetterTldIsInvalid | lib/domains/auth.go:158 | a final segment of one character makes an address invalid |
| Auth.EmailExamples | lib/domains/auth.go:158 | "jane.doe@example.com" is valid; "jane.doe@example", "jane@example.c" and "@example.com" are not |
| Auth.SignupHandler | lib/domains/auth.go:115-155 | a user is inserted exactly when the answer is the redirect to /login, and only after every check passed, as a free user with the submitted fields; conversely, when the session, both fields, the e-mail, the password length, the connection and the insert all pass, that user is inserted |
| Auth.SignupCheckOrder | lib/domains/auth.go:127-140 | an empty field is reported first, then an invalid e-mail, then a short password |
| Auth.WeakPasswordIsAccepted | lib/domains/auth.go:137-148 | a password the strength check refuses is still stored as typed |
| Billing.CheckoutCompleted | lib/domains/stripe.go:216-219 | every row with the e-mail becomes premium and records the customer; no other row changes |
| Billing.SetPremiumByCustomer | lib/domains/stripe.go:248-251 | every row with the customer id gets the flag; no other row changes, and rows without a customer id never match |
| Billing.HandleCheckoutCompleted | lib/domains/stripe.go:199-227 | a decoding error or missing customer data is an error; otherwise the UPDATE's effect, unless it failed |
| Billing.HandleSubscriptionUpdated | lib/domains/stripe.go:229-257 | the customer's rows are premium exactly when the status is active or trialing; errors for bad data, a missing customer or a failed UPDATE |
| Billing.HandleSubscriptionDeleted | lib/domains/stripe.go:259-286 | the customer's rows lose premium and no other row changes; errors as for updates |
| Billing.HandleEvent | lib/domains/stripe.go:178-188 | checkout, subscription update (updated, created, resumed) and deletion go to their handlers; any other type leaves the table as it is |
| Billing.StripeWebhook | lib/domains/stripe.go:143-197 | a non-POST gets 405, an unreadable body 400, a missing secret 500, a bad signature 400; the table changes only on 200, which is answered exactly when the handler succeeds |
| Billing.UnhandledEventIsAcknowledged | lib/domains/stripe.go:186-196 | an event of another type gets 200 and changes nothing |
| Billing.CheckoutIsIdempotent | lib/domains/stripe.go:216-219 | applying the same checkout twice is applying it once |
| Billing.LastSubscriptionWriteWins | lib/domains/stripe.go:248-251 | of two writes for one customer, the later decides |
| Billing.DistinctCustomersCommute | lib/domains/stripe.go:248-251 | writes for two different customers can be applied in either order |
| Billing.RedeliveryIsHarmless | lib/domains/stripe.go:178-188 | a second successful delivery of the same event leaves the table as the first did |
| Billing.DeletionIsUpdateToCanceled | lib/domains/stripe.go:246-251 | a deletion has the effect of an update to a status that grants nothing |
| Billing.CancellationRevokesCheckout | lib/domains/stripe.go:216-219 | after a checkout, deleting that customer's subscription revokes premium from every row the checkout upgraded |
| Billing.SubscriptionStatuses | lib/domains/stripe.go:246 | only active and trialing grant premium |
| Billing.Domain | lib/domains/stripe.go:51-54 | the base URL is the setting, or the local default when it is empty |
| Billing.CheckoutCustomer | lib/domains/stripe.go:75-79 | a stored non-empty customer id is reused, otherwise the e-mail is given |
| Billing.CreateCheckoutSession | lib/domains/stripe.go:23-89 | a session is requested only for a signed-in user whose row was read and with a configured price, for the customer `CheckoutCustomer` picks and the dashboard return URLs; a 303 redirect exactly when it was created |
| Billing.CustomerPortal | lib/domains/stripe.go:91-141 | a user without a non-empty customer id gets 400 before Stripe is asked; otherwise the session is for that customer, returning to the dashboard |
| Billing.PortalNeedsCheckoutCustomer | lib/domains/stripe.go:75-79 | the portal refuses exactly the users whom checkout addresses by e-mail |

## Left out

- Concurrency: the mutexes, the background sweep goroutines and their tickers, and the lazily created shared limiter and manager. Each sweep is one call of `Sweep(now)`.
- The wall clock: every `time.Now` and `time.Since` is the parameter `now`.
- The random source: it is an input, either 32 bytes or an error.
- `subtle.ConstantTimeCompare`: only its result, equality, is modelled. Its timing behaviour cannot be stated.
- Floating point: amounts are exact reals. A total of zero tantiemes, which the code divides by, is excluded by `requires`.
- `HashPassword` and `CheckPassword`: they wrap bcrypt and are not modelled.
- Password.ValidatePasswordStrength: upper case, lower case and digits are the ASCII ones, where the code uses the Unicode classes.
- Auth.IsValidEmail: modelled as the explicit recogniser of the fixed pattern; the regular-expression engine is not.
- HTTP: header-name canonicalisation, form parsing, templates and redirects are not modelled. Headers and forms are maps.
- External systems: SQL queries, Redis sessions, the Stripe SDK, webhook signature checking, JSON decoding and `os.Getenv` are all inputs holding their outcome.
- Login and logout (`GetAuthenticatedUserID`, `LoginHandler`, `LogoutHandler`): the session store is not part of this model.
- PDF export (lib/domains/export.go), statistics logging, the entry points and the database connection manager are not part of this model.
- The copies of the same code outside `lib/` are not part of this model.
