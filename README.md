# track-job in Dafny

This project models the core of track-job, a job-application tracker. It has two parts: an
Express API over a SQLite `jobs` table and a `users` table, and a React web client. The model
covers both.

**The API side:**
- the job controller: body validation, the rule of at most two rows with status "Emprego Atual",
  and the index/create/update/delete handlers;
- user registration;
- the login handler with its hard-coded credentials;
- the bearer-token middleware;
- the session-check endpoints;
- the error-classifying middleware;
- the token-expiry helpers.

**The web side:**
- the job form's schema, warnings and option lists;
- the sign-in page's schema, warning and submit branching;
- the localStorage-backed session store;
- the currency-symbol lookup.

**Shared modules.** Some library behaviour that the core relies on is written out once:
- `Strings`: JavaScript `trim` over the ECMAScript whitespace set, `length` in UTF-16 code
  units, `split` on one character, `includes`, and `String(n)`.
- `Validation`: zod's string and number checks. Trimming comes first, then every failing check
  adds one issue, in declaration order, and an object reports the issues of all its fields.
  It also has react-hook-form's "first issue per field".
- `Errors` and `Http`: `AppError` (status 400 by default), `ZodError`, other errors, and a
  reply made of a status and a body.

**State.** The state the source changes in place is modelled with classes:
- `JobController.JobTable`: the jobs table plus SQLite's autoincrement counter;
- `UserController.UserStore`: the users table;
- `EnsureAuthenticated.Request`: `request.user`;
- `AuthContext.AuthSession`: localStorage, the React `user` state and the last navigation target.

The pure parts are datatypes and functions.

**Foreign calls.** These are parameters:
- zod's email pattern (`isEmail`);
- bcrypt's `hash`;
- jsonwebtoken's `sign`, `verify` and `decode` (their results);
- `JSON.parse` and `JSON.stringify`;
- the sign-in request (`authenticate`);
- the database-generated user id;
- the clock (`now`, `nowIso`);
- `window.location.pathname`.

**Facts about the code worth knowing before reading the model:**
- There is no owner column. The cap on "Emprego Atual" rows counts the whole table, and nothing
  is scoped to an account.
- Create and update answer with a message, not with the stored row.
- Login compares against one fixed user. The token carries no email or name claims: only `sub`,
  plus the `iat` and `exp` that jsonwebtoken adds. `exp` is the claim `TokenUtils` reads.
- Every failure of the bearer-token middleware gives the same 401 message. There is no sub-code.
- The fallback error handler answers 500 with the error's own message.
- The request-body schema requires at least 6 characters for `vacancy_modality`, as well as the
  minimums of the other fields.
- Company-name search is a case-sensitive substring test in the model (see "Left out").
- POST /sessions answers `{ token }` only, while the sign-in page reads `response.user` from the
  answer. Against this API a correct login therefore ends at "/job" with no user set,
  "undefined" stored as the user, and a session that the next reload clears
  (`SignIn.SignInAgainstSessionsApi`).

## Model

| member | source | states |
|---|---|---|
| Strings.TrimStartSpec | API/src/controllers/job-controller.ts:26-35 | `trimStart` drops exactly the maximal whitespace prefix: the result is a suffix, what was removed is whitespace, and the result does not start with whitespace |
| Strings.TrimEndSpec | API/src/controllers/job-controller.ts:26-35 | `trimEnd` drops exactly the maximal whitespace suffix |
| Strings.TrimEdges | API/src/controllers/job-controller.ts:26-35 | a trimmed value is a contiguous factor of the input, no longer than it, and neither starts nor ends with whitespace |
| Strings.TrimClean | API/src/controllers/job-controller.ts:26-35 | trimming a value whose ends are not whitespace leaves it unchanged |
| Strings.TrimIdempotent | API/src/controllers/job-controller.ts:26-35 | trimming twice is trimming once |
| Strings.Utf16Length | API/src/controllers/job-controller.ts:26-35 | `length` counts UTF-16 code units: between the number of characters and twice that |
| Strings.Utf16LengthBmp | API/src/controllers/job-controller.ts:26-35 | without characters outside the Basic Multilingual Plane, `length` is the character count |
| Strings.ContainsEmpty | API/src/controllers/job-controller.ts:14 | the pattern `%%` (empty substring) matches every company name |
| Strings.IndexOf | API/src/middlewares/ensureAuthenticated.ts:19 | the first position of a character: it holds the character and no earlier position does |
| Strings.Split | API/src/middlewares/ensureAuthenticated.ts:19 | `split(" ")` yields at least one piece; it yields exactly one iff the separator does not occur; no piece contains the separator; joining the pieces gives the input back |
| Strings.SplitJoin | API/src/middlewares/ensureAuthenticated.ts:19 | splitting what was joined from separator-free pieces gives the same pieces |
| Strings.DecimalString | API/src/controllers/sessions-controller.ts:26 | `String(n)` of a natural number is a non-empty string of decimal digits |
| Strings.DecimalStringValue | API/src/controllers/sessions-controller.ts:26 | the digits of `String(n)`, read left to right, spell `n`, and a result longer than one digit does not start with '0' |
| Validation.FailedChecks | API/src/controllers/user-controller.ts:12-46 | the issues of a field's checks: none iff every check passes; there are no more issues than checks; every issue carries the field's path; a failing first check is reported first |
| Validation.FailedChecksExact | API/src/controllers/user-controller.ts:12-46 | one issue per failing check, both ways: every failing check's issue is among the issues, and every issue is the issue of some failing check |
| Validation.ParseString | API/src/controllers/user-controller.ts:13-45 | a string field parses iff it is present and its (trimmed) value passes every check; it then yields that value; a missing field gives exactly the required-message issue; failures are non-empty and on the field's path |
| Validation.ParseNonNegative | API/src/controllers/job-controller.ts:30-31 | a number field parses iff it is present (or optional) and not negative, and yields the value unchanged |
| Validation.FirstIssueAt | Web/src/Pages/Auth/SignIn.tsx:73-79 | react-hook-form's error for a field is absent iff no issue has that path, and otherwise is the first issue with that path |
| Validation.FirstIssueAtConcat | Web/src/Pages/Auth/SignIn.tsx:18-39 | issues appended after a field's own issues do not change that field's first issue |
| Validation.AllPassOne | API/src/controllers/user-controller.ts:13-22 | proof helper: a one-check schema passes iff its check passes |
| Validation.AllPassPair | API/src/controllers/user-controller.ts:23-35 | proof helper: a two-check schema passes iff both checks pass |
| Validation.Paths | API/src/controllers/user-controller.ts:12-48 | the paths an issue list names: every issue's path is in the set, and every path in the set belongs to some issue |
| Validation.PathsConcat | API/src/controllers/user-controller.ts:12-48 | the paths of two issue lists together are the union of the paths of each |
| Validation.PathsOfOneField | API/src/controllers/user-controller.ts:12-48 | a non-empty list of issues all on one path names just that path |
| Validation.PathsOfParse | API/src/controllers/user-controller.ts:12-48 | a failed field parse whose issues carry its path names exactly that path; a successful one names nothing |
| Errors.AppErrorDefaultsToBadRequest | API/build/utils/AppError.mjs:5-8 | `new AppError(message)` without a status code is the AppError with that message and status 400 |
| ErrorHandling.Handle | API/src/middlewares/error-handling.ts:6-21 | an AppError is answered with its own status and `{message}`; a ZodError with 400, "Validation error" and the issues; anything else with 500 and its own message; the validation body appears iff the error is a ZodError |
| ErrorHandling.DefaultAppErrorIsBadRequest | API/src/middlewares/error-handling.ts:12-13 | an AppError built without a status is answered with 400 |
| JobController.ParseTrimmedField | API/src/controllers/job-controller.ts:26-35 | a `z.string().trim().min(n)` field parses iff it is present with at least n code units after trimming, and yields the trimmed value; its issues name exactly its own path when it fails, and nothing when it passes |
| JobController.ParseSalaryField | API/src/controllers/job-controller.ts:30-31 | a salary parses iff it is present and non-negative; its issues name exactly its own path when it fails |
| JobController.NoFailingFields | API/src/controllers/job-controller.ts:25-36 | the set of failing fields is empty exactly when the schema accepts the body |
| JobController.PathsOfTen | API/src/controllers/job-controller.ts:25-36 | proof helper: the paths of ten issue lists run together are the union of their paths |
| JobController.BodyIssues | API/src/controllers/job-controller.ts:25-49 | the issues zod collects name exactly the failing fields (each field whose trimmed minimum or salary rule is broken), and there are none iff the schema accepts the body |
| JobController.ValidateJobBody | API/src/controllers/job-controller.ts:25-49 | the body parses iff every trimmed minimum holds (4, 8, 5, 4, 6, 2, 4, 7) and both salaries are present and non-negative; the result is the body with each string trimmed; a failure is non-empty, every issue's path is a failing field, and every failing field has an issue |
| JobController.RejectedBodyAnswer | API/src/middlewares/error-handling.ts:14-17 | a refused job body reaches the client as 400 with "Validation error" and a non-empty issue list whose paths are exactly the failing fields |
| JobController.CountCurrent | API/src/controllers/job-controller.ts:53-56 | the number of rows with status "Emprego Atual" never exceeds the row count |
| JobController.PositionsSnoc | API/src/controllers/job-controller.ts:53-56 | proof helper: appending a row adds its position to the "Emprego Atual" positions iff it has that status |
| JobController.CountCurrentCountsPositions | API/src/controllers/job-controller.ts:53-56 | the count equals the number of table positions whose row has status "Emprego Atual" |
| JobController.FindJob | API/src/controllers/job-controller.ts:122-125 | `where({ id }).first()` finds nothing iff no row has the id, and otherwise a row of the table with that id |
| JobController.RemoveJob | API/src/controllers/job-controller.ts:187 | delete keeps exactly the rows whose id differs |
| JobController.ReplaceJob | API/src/controllers/job-controller.ts:146-160 | update keeps every row's id and created_at and every other row unchanged; the matching row gets the new body and `updated_at = now` |
| JobController.UniqueTail | API/src/database/migrations/20241109202134_create-jobs.ts:5 | proof helper: the rows after the first still have distinct ids, none equal to the first's |
| JobController.CountConcat | API/src/controllers/job-controller.ts:53-56 | counting over two row lists is additive |
| JobController.CountCons | API/src/controllers/job-controller.ts:53-56 | proof helper: adding one row adds one to the count iff its status is "Emprego Atual" |
| JobController.CountRemove | API/src/controllers/job-controller.ts:133-137 | the count excluding an existing id, plus that row's contribution, is the full count |
| JobController.RemoveAbsent | API/src/controllers/job-controller.ts:187 | deleting an id no row has changes nothing |
| JobController.CountReplace | API/src/controllers/job-controller.ts:132-160 | after an update the count is the count of the other rows plus one iff the new status is "Emprego Atual" |
| JobController.ReplaceAbsent | API/src/controllers/job-controller.ts:146-160 | updating an id no row has changes nothing |
| JobController.ConsKeepsIdsUnique | API/src/database/migrations/20241109202134_create-jobs.ts:5 | proof helper: putting a row with a new id in front keeps ids distinct |
| JobController.RemoveKeepsIdsUnique | API/src/controllers/job-controller.ts:187 | delete keeps the ids distinct |
| JobController.RemoveExactlyOne | API/src/controllers/job-controller.ts:183-187 | deleting an existing id removes exactly that one row: the multiset of rows loses just it, and the length drops by one |
| JobController.FindAfterAppend | API/src/controllers/job-controller.ts:65-76 | after an insert every earlier id finds the same row, and the new id finds the new row |
| JobController.FindAfterRemove | API/src/controllers/job-controller.ts:187 | after a delete the id finds nothing and every other id finds what it found before |
| JobController.FindAfterReplace | API/src/controllers/job-controller.ts:146-160 | after an update the id finds the updated row and every other id finds what it found before |
| JobController.FilterByCompany | API/src/controllers/job-controller.ts:14 | the filter keeps exactly the rows whose company name contains the pattern, each as many times as the table holds it, and drops every other row |
| JobController.FilterEmptyPatternKeepsAll | API/src/controllers/job-controller.ts:14 | the empty pattern keeps every row |
| JobController.InsertByCreatedDesc | API/src/controllers/job-controller.ts:15 | inserting into a list ordered by non-increasing created_at keeps it ordered and adds exactly that row |
| JobController.SortByCreatedDesc | API/src/controllers/job-controller.ts:15 | `orderBy("created_at", "desc")` yields a permutation in non-increasing created_at order |
| JobController.IndexQuery | API/src/controllers/job-controller.ts:11-15 | the listing is ordered by non-increasing created_at and is a permutation of the rows matching `%company_name%` (`?? ""` when absent) |
| JobController.IndexWithoutFilterListsAll | API/src/controllers/job-controller.ts:14-15 | without a filter the listing is a permutation of the whole table |
| JobController.DeletedJobNotListed | API/src/controllers/job-controller.ts:187 | a deleted row is never listed again |
| JobController.JobTable.constructor | API/src/database/migrations/20241109202134_create-jobs.ts:4-16 | a table starts with the given rows and counter, which must have distinct positive ids not above the counter |
| JobController.JobTable.Index | API/src/controllers/job-controller.ts:9-21 | GET /jobs answers 200 with the rows matching the filter, as a permutation in non-increasing created_at order, and changes nothing |
| JobController.JobTable.InsertRow | API/src/controllers/job-controller.ts:65-76 | the insert appends one row with the next autoincrement id, the body and `created_at = updated_at = now` |
| JobController.JobTable.UpdateRow | API/src/controllers/job-controller.ts:146-160 | the update replaces the target row's body and updated_at, keeping the table valid |
| JobController.JobTable.DeleteRow | API/src/controllers/job-controller.ts:187 | the delete removes the row with that id, keeping the table valid |
| JobController.JobTable.Create | API/src/controllers/job-controller.ts:23-84 | an invalid body gives the ZodError and writes nothing; status "Emprego Atual" with two or more such rows gives AppError 400 with the create message and writes nothing, and any other status skips the count; otherwise one row of the trimmed values is appended, the others stay unchanged, and the answer is 201 "Job created successfully"; the cap of two is preserved |
| JobController.JobTable.Update | API/src/controllers/job-controller.ts:86-166 | a non-numeric id or an invalid body gives the ZodError; a missing id gives AppError("Job not found", 404); the cap counts the other rows only; on success the row is replaced with `updated_at = now` and the answer is 200; every failure writes nothing; the cap is preserved |
| JobController.JobTable.Delete | API/src/controllers/job-controller.ts:168-193 | a non-numeric id gives the ZodError; a missing id gives AppError("Job not found", 404) and nothing changes; otherwise exactly that row is removed and the answer is 200; the cap is preserved |
| JobController.CapScenario | API/src/controllers/job-controller.ts:51-63 | on an empty table two creates with status "Emprego Atual" succeed and a third is refused with the cap error, leaving two rows |
| UserController.NamePaths | API/src/controllers/user-controller.ts:13-22 | the name's issues name "name" exactly when the trimmed name is missing or shorter than 4 |
| UserController.EmailPaths | API/src/controllers/user-controller.ts:23-35 | the email's issues name "email" exactly when the trimmed email is missing, shorter than 6 or not email-shaped |
| UserController.PasswordPaths | API/src/controllers/user-controller.ts:36-45 | the password's issues name "password" exactly when the trimmed password is missing or shorter than 8 |
| UserController.NoFailingUserFields | API/src/controllers/user-controller.ts:12-46 | no field fails exactly when the registration schema accepts the body |
| UserController.UserIssues | API/src/controllers/user-controller.ts:12-48 | the issues zod collects name exactly the failing fields, and there are none iff the schema accepts the body |
| UserController.ValidateUserBody | API/src/controllers/user-controller.ts:12-48 | the body parses iff the trimmed name has at least 4 code units, the trimmed email at least 6 and email-shaped, and the trimmed password at least 8; the result holds the trimmed values; a failure is non-empty and its issue paths are exactly the failing fields |
| UserController.RejectedUserBodyAnswer | API/src/middlewares/error-handling.ts:14-17 | a refused registration body reaches the client as 400 with "Validation error" and a non-empty issue list whose paths are exactly the failing fields |
| UserController.WithoutPasswordLosesOnlyPassword | API/src/controllers/user-controller.ts:72 | the public user keeps every stored field except the password: putting the password back restores the row |
| UserController.FindUserByEmail | API/src/controllers/user-controller.ts:50-54 | `findFirst({ where: { email } })` finds nothing iff no user has the email, and otherwise a stored user with it |
| UserController.FindUserById | API/src/controllers/auth-controller.ts:54-66 | `findUnique({ where: { id } })` finds nothing iff no user has the id, and otherwise a stored user with it |
| UserController.AppendNewEmailKeepsDistinct | API/src/controllers/user-controller.ts:50-70 | appending a user whose email is not yet stored keeps emails pairwise distinct |
| UserController.UserStore.constructor | API/src/controllers/user-controller.ts:64-70 | a store starts with the given users |
| UserController.UserStore.Create | API/src/controllers/user-controller.ts:10-78 | an invalid body gives the ZodError; a taken email gives AppError with the default status 400; both create nothing; otherwise exactly one user is appended with the trimmed name and email and `hash(trimmed password, 10)`, and the answer is 201 with every field but the password; distinct emails stay distinct |
| SessionsController.Create | API/src/controllers/sessions-controller.ts:7-35 | login succeeds iff email is "email@email.com" and password "12345678"; otherwise AppError("Email e/ou senha incorretos!", 401); on success the body holds only the token signed with expiresIn "1d" and subject "1" |
| SessionsController.RejectionsAreIdentical | API/src/controllers/sessions-controller.ts:18-20 | every rejected login, wrong email or wrong password, gets the identical error |
| EnsureAuthenticated.ExtractToken | API/src/middlewares/ensureAuthenticated.ts:19 | a token exists iff the header contains a space, and it contains no space |
| EnsureAuthenticated.SchemeWordIgnored | API/src/middlewares/ensureAuthenticated.ts:19 | the first word of the header is never checked: any space-free scheme word gives the same token |
| EnsureAuthenticated.BearerHeaderRoundTrip | Web/src/lib/axios.ts:12-14 | the header the client builds, `Bearer ${token}`, is parsed back to the same space-free token |
| EnsureAuthenticated.Authenticate | API/src/middlewares/ensureAuthenticated.ts:12-30 | success iff the header is present and non-empty, has a second word, and verify accepts it; the user id is `String(sub)`; every failure, a missing header included, is AppError("JWT token inválido!", 401) |
| EnsureAuthenticated.EmptyTokenRejected | API/src/middlewares/ensureAuthenticated.ts:19-29 | when `verify` refuses the empty string, as jsonwebtoken's does, a header whose second word is empty (`"Bearer "`) is answered with the single 401 error |
| EnsureAuthenticated.EnsureAuthenticated | API/src/middlewares/ensureAuthenticated.ts:7-31 | `next` is called iff authentication succeeds, and then `request.user` is set; otherwise the 401 error is thrown and `request.user` is untouched |
| EnsureAuthenticated.Request.constructor | API/src/middlewares/ensureAuthenticated.ts:13 | a request carries its header and no user |
| AuthController.ValidateToken | API/src/controllers/auth-controller.ts:10-34 | without a user: 401, `success: false`, "Usuário não autenticado", and no `userId` or `timestamp`; with one: 200, `success: true`, "Token válido", `userId` equal to the user's id and `timestamp` equal to the current ISO time |
| AuthController.Me | API/src/controllers/auth-controller.ts:40-83 | 401 without a user; 404 "Usuário não encontrado" when no stored user has the id; 200 iff one has, with that user minus the password |
| TokenUtils.IsTokenExpired | API/src/utils/TokenUtils.ts:12-25 | a token is still valid exactly when its payload has a non-zero `exp` and the clock has not passed exp·1000 ms; no payload, a throwing decode, a missing exp or exp 0 all count as expired |
| TokenUtils.MinutesUntilExpiration | API/src/utils/TokenUtils.ts:45-67 | an expired token has 0 minutes left; otherwise the result is the number of whole minutes left before exp·1000 |
| TokenUtils.ExpiryBoundary | API/src/utils/TokenUtils.ts:21 | with a usable exp, the token is expired iff now > exp·1000; it is still valid at exactly exp·1000 |
| TokenUtils.ExpiredStaysExpired | API/src/utils/TokenUtils.ts:12-25 | once expired, a token stays expired as the clock advances |
| TokenUtils.MinutesAreFloor | API/src/utils/TokenUtils.ts:53-63 | with time left, the minutes m satisfy m·60000 ≤ diff < (m+1)·60000 |
| TokenUtils.ExpiredHasNoMinutes | API/src/utils/TokenUtils.ts:12-66 | an expired token has 0 minutes left, including no payload, a throwing decode, a missing exp and exp 0 |
| TokenUtils.MinutesImplyValid | API/src/utils/TokenUtils.ts:12-66 | a positive number of minutes means the token is not expired |
| TokenUtils.MinutesNonIncreasing | API/src/utils/TokenUtils.ts:53-63 | the minutes left never grow as the clock advances |
| TokenUtils.MulOrder | API/src/utils/TokenUtils.ts:63 | proof helper for the floor bound: a·k < b·k with k > 0 implies a < b |
| TokenUtils.DivMonotone | API/src/utils/TokenUtils.ts:63 | proof helper: floor division by a positive constant is monotone |
| CurrencyUtils.GetCurrencySymbol | Web/src/utils/currencyUtils.ts:1-9 | the symbol is one of "R$", "$", "€" and ""; it is "" iff the currency is none of "Real", "Dólar", "Euro" |
| CurrencyUtils.KnownSymbols | Web/src/utils/currencyUtils.ts:1-5 | "Real" maps to "R$", "Dólar" to "$", "Euro" to "€" |
| JobForm.ParseFormField | Web/src/components/JobForm/index.tsx:40-64 | a form string field passes iff its (trimmed when the schema trims) length reaches the minimum; it fails with exactly one issue carrying the field's message |
| JobForm.FirstMessage | Web/src/components/JobForm/index.tsx:219-233 | a field's recorded message is absent iff it has no issue, and otherwise is the first issue's message |
| JobForm.FormErrors | Web/src/components/JobForm/index.tsx:38-65 | each field has an error exactly when its rule fails (company name trimmed ≥4, position ≥8, seniority ≥5, currency ≥4, salaries non-negative when set, modality ≥6, regime ≥2, place ≥4, status trimmed ≥7), with that field's message |
| JobForm.ValidateJobForm | Web/src/components/JobForm/index.tsx:38-65 | the form parses iff every rule holds, yielding the values with company name and status trimmed; otherwise some field has an error |
| JobForm.ShowErrorAlerts | Web/src/components/JobForm/index.tsx:219-233 | no warning iff none of company_name, position, seniority_level, vacancy_modality, work_regime, place has an error; otherwise the first of them, in that order, with an error supplies the warning |
| JobForm.UnwarnedFieldsIgnored | Web/src/components/JobForm/index.tsx:219-233 | errors on payment_currency, the salaries and status never change the warning |
| JobForm.WarningForFirstFailingField | Web/src/components/JobForm/index.tsx:38-233 | the warning is the message of the first failing field in the order company_name, position, seniority_level, vacancy_modality, work_regime, place, and none when those six pass |
| JobForm.Submit | Web/src/components/JobForm/index.tsx:235-273 | `onAdd` receives the parsed values, with company name and status trimmed, iff the schema accepts them; otherwise `showErrorAlerts` gets the form's errors |
| JobForm.ShortCompanyNameScenario | Web/src/components/JobForm/index.test.tsx:48-65 | a three-letter company name ("ABC") is refused with the company message and nothing is added |
| JobForm.MissingPositionScenario | Web/src/components/JobForm/index.test.tsx:67-84 | "Empresa Teste" with no position is refused with the position message |
| JobForm.DefaultValuesChecks | Web/src/components/JobForm/index.tsx:197-209 | the default status "Enviada" passes its rule, every empty default string fails its own, and the default salaries pass |
| JobForm.UntouchedFormWarned | Web/src/components/JobForm/index.tsx:197-233 | submitting with the empty default company name warns with the company message |
| JobForm.OptionsMeetMinimums | Web/src/components/JobForm/index.tsx:88-571 | every selectable position, level, currency, modality, regime and state meets its field's minimum |
| JobForm.FormCurrenciesHaveSymbols | Web/src/utils/currencyUtils.ts:1-5 | every currency the form offers (index.tsx lines 402, 418, 434) has a non-empty symbol |
| JobForm.TrimKeepsOptions | Web/src/components/JobForm/index.tsx:88-193 | options that begin and end with a letter are unchanged by trimming |
| JobForm.OptionsHaveLetterEnds | Web/src/components/JobForm/index.tsx:88-571 | every offered option begins and ends with a letter |
| JobForm.AcceptedChoicesPassServer | API/src/controllers/job-controller.ts:25-49 | values the form accepts, with every choice from the offered options and both salaries set, pass the server's schema, and the server would store exactly the submitted values |
| SignIn.FormErrors | Web/src/Pages/Auth/SignIn.tsx:18-39 | email error: the length message when the trimmed email is under 6 code units whatever its format, else the format message when not email-shaped; password error iff the trimmed password is under 8 |
| SignIn.ValidateSignIn | Web/src/Pages/Auth/SignIn.tsx:18-39 | the form parses iff the trimmed email is at least 6 and email-shaped and the trimmed password at least 8, yielding the trimmed values |
| SignIn.ShowErrorAlerts | Web/src/Pages/Auth/SignIn.tsx:73-79 | at most one warning; none iff neither field has an error; an email error wins over a password error |
| SignIn.ShortEmailScenario | Web/src/Pages/Auth/SignIn.test.tsx:123-142 | "a@b.c" is warned with the 6-character message whatever the password and the format check |
| SignIn.FailureMessage | Web/src/Pages/Auth/SignIn.tsx:92-97 | the toast shows an Error's own message and a fixed generic text for anything else |
| SignIn.Submit | Web/src/Pages/Auth/SignIn.tsx:81-98 | invalid input shows the warning and leaves the session alone; a rejected request toasts the failure message and leaves the session alone; otherwise it signs in with the response's token and whatever user the response holds (none if it has none) and ends at "/job" |
| SignIn.SessionsResponseData | API/src/controllers/sessions-controller.ts:31 | the `{ token }` body of POST /sessions, read as the client's `AuthResponse`, has the token and no user |
| SignIn.SessionsRequest | API/src/controllers/sessions-controller.ts:18-31 | against the project's own API the request succeeds iff the trimmed values are the fixed credentials, a success carries no user, and a rejection throws an `Error` with the 401 message |
| SignIn.FakeCredentialsAccepted | Web/src/Pages/Auth/SignIn.tsx:18-39 | the API's fixed credentials pass the sign-in schema and are unchanged by trimming |
| SignIn.SignInAgainstSessionsApi | Web/src/Pages/Auth/SignIn.tsx:81-90 | with the right credentials against the project's own API the page reports success and ends at "/job", yet no user is set, "undefined" is stored as the user, and the next reload removes both keys and finds no user |
| AuthContext.RestoreSession | Web/src/contexts/auth.tsx:27-47 | the initial user is restored iff both keys hold non-empty values and the stored user parses to a user; a parse failure removes both keys and gives no user; otherwise storage is untouched |
| AuthContext.SignedInStorage | Web/src/contexts/auth.tsx:88-90 | sign-in stores the token and the serialized user under their keys and keeps every other key |
| AuthContext.SignedOutStorage | Web/src/contexts/auth.tsx:59-61 | sign-out removes both keys and keeps every other key |
| AuthContext.CheckAuthStep | Web/src/contexts/auth.tsx:68-80 | afterwards a user exists iff a token is stored; it signs out iff there was a user and no token; a consistent state is left as it is |
| AuthContext.CheckAuthIdempotent | Web/src/contexts/auth.tsx:68-80 | a second `checkAuth` changes nothing |
| AuthContext.ReloadAfterSignIn | Web/src/contexts/auth.tsx:27-94 | after signing in with a non-empty token, a reload restores the same user when `JSON.parse` reads back what `JSON.stringify` wrote |
| AuthContext.ReloadAfterSignInWithoutUser | Web/src/contexts/auth.tsx:27-47 | after signing in with a non-empty token and an `undefined` user, a reload finds "undefined", which `JSON.parse` rejects, so it removes both keys and finds no user |
| AuthContext.ReloadAfterSignOut | Web/src/contexts/auth.tsx:27-64 | after signing out, a reload finds no user |
| AuthContext.AuthSession.constructor | Web/src/contexts/auth.tsx:27-57 | the provider starts from the restored state and moves a restored user from "/" to "/home" |
| AuthContext.AuthSession.IsAuthenticated | Web/src/contexts/auth.tsx:50 | authenticated exactly when there is a user |
| AuthContext.AuthSession.SignIn | Web/src/contexts/auth.tsx:88-94 | stores the token and the serialized user ("undefined" when the user is `undefined`), sets the user as given and navigates to "/home" |
| AuthContext.AuthSession.SignOut | Web/src/contexts/auth.tsx:59-64 | removes both keys, clears the user and navigates to "/" |
| AuthContext.AuthSession.CheckAuth | Web/src/contexts/auth.tsx:68-80 | applies one `checkAuth` step, navigating to "/" when it signs out; afterwards a user exists iff a token is stored |

## Left out

**Not modelled:**
- `API/build/**`: this is compiled output of an older revision (position ≥13, no salaries or currency, no cap), so only the `src` sources are modelled. The one exception is `API/build/utils/AppError.mjs`, the only copy of the `AppError` class here; `API/src/utils/AppError.ts` is not part of this model.
- SQLite `LIKE`: the model treats `%pattern%` as a plain, case-sensitive substring test. SQLite's ASCII case folding and the `%`/`_` wildcards inside the company-name filter are not modelled.
- Timestamps: `now` is a parameter, so the `-3 hours` offset of `datetime('now', '-3 hours')` and the column defaults of the migration are not modelled. A new row's `created_at` and `updated_at` are both `now`.
- The race between the cap count and the following insert or update: every handler runs atomically, one at a time.
- `Number(request.params.id)`: the id arrives already parsed, as `None` for NaN or an integer. Non-integer numeric ids and the `""`-to-0 coercion are not modelled.
- The nested shape of `ZodError.format()`: a validation error carries the flat issue list. Its set of paths (`Validation.Paths`) gives the keys `format()` would have.
- Request bodies: a value of the wrong JSON type is treated like a missing field. In the form, a salary left `undefined` is passed on as absent, where `Number(undefined)` would give NaN.
- `signInRequest`'s HTTP call: `SignIn.SessionsRequest` goes straight to the login handler. The network-failure branch and its fixed message are not modelled, and the 401 reply's `{ message }` is taken to reach the page as the `Error`'s message.
- EnsureAuthenticated.Authenticate: jsonwebtoken's `verify` is a parameter, so its refusal of the empty token is not built in. The `Authenticate` result for an empty second word is stated under that assumption, by `EmptyTokenRejected`.
- `JSON.parse` of stored text is limited to a user, `null` or an exception. Other JSON values (numbers, arrays) are not modelled.
- `TokenUtils.getTokenPayload` is a one-line wrapper around `decode` with no logic of its own; `Decoded` models what `decode` returns.
- On the web client: rendering, the 30-second `setInterval` that runs `checkAuth`, toasts, `reset()`, `setOpen`, the editing `useEffect` and `setValue` calls. Navigation is recorded only as the last target.
- JavaScript prototype keys such as "constructor" in the `currencySymbols` lookup.
- The users table's column defaults: the Prisma schema is not part of this model. A new user gets `avatar = None` and `created_at = updated_at = now`; these are assumptions, not code.
- `UserController.UserStore.Create` takes the database-generated id as a parameter and requires that it is not already in use. Prisma's id generation is not modelled.

**Weaker than the source:**
- UserController.UserStore.Create: the stored password is `hash(trimmed password, 10)` for an abstract `hash`; that the hash never equals the plaintext is a property of bcrypt and is not stated.
- JobForm.AcceptedChoicesPassServer: covers only selections taken from the offered options. A hand-typed value with surrounding spaces can pass the untrimmed client rule and still fail the server's trimmed one.
- SessionsController.Create: the token is `sign(options)` for an abstract `sign`. The secret and the HMAC signature are not modelled.
