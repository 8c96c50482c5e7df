# Internship portal: a Dafny model of the review workflow

This project models the logic of a small internship-application portal.

Applicants submit a form with a PDF. Administrators review the applications, accept or reject them, and send free-text notifications that are also mailed. Applicants and administrators sign in with accounts whose passwords are stored hashed.

The model has two halves.

- **The server.** The four routes that write the three stores are methods of one class, `Store.Portal`:
  - `POST /api/apply`;
  - `POST /api/update-status`;
  - `POST /api/notifications`;
  - `POST /api/auth/register`.

  The stores are the applicants (a sequence in insertion order), the notifications (a sequence), and the accounts (a map keyed by email). Each route's guard chain is a pure function in its own module: `ApplyRoute`, `UpdateStatusRoute`, `NotificationsRoute` and `AuthRoutes`. Sign-in (`AuthRoutes.Login`) only reads. `Store.Portal.Valid` holds the invariants of the stores:
  - ids are distinct and drawn from counters;
  - applicant emails are unique;
  - every account link and every notification's applicant exists;
  - accounts are keyed by their own email.

  Every writing route keeps these invariants.
- **The browser.** Each client component is a class whose fields are its React state and refs:
  - the application form;
  - the review page;
  - the applicant's notification bell;
  - the reviewer's pending bell;
  - the landing page.

  `localStorage` is the shared class `Browser.Storage`, with its two keys `user` and `applicantId`. Each event handler is a method. Its contract states the new state of every field. The pure parts are functions with lemmas: filters, counts, colours, badge, keyword classification, matching rule, redirect.

The JavaScript primitives the code relies on are modelled in `Common`:
- `replace(/\D/g, "")` and `replace(/[^0-9+]/g, "")`;
- `includes`;
- `trim`;
- `parseInt(_, 10)`;
- `String(n)`.

Behaviours of the code worth knowing, which the model keeps:
- **Phone number.** The server's character check is `/^[0-9+]+$/`, so a plus sign is accepted anywhere in the number, not only in front (`ApplyRoute.PlusAcceptedAnywhere`).
- **File checks.** The server checks neither the file's type nor its size. Only the browser does (`ApplicationFormComponent.FileCheck`).
- **Mail failure.** A mail that cannot be sent turns the notification reply into a failure, but the notification stays stored (`Store.Portal.SendNotification`).
- **Rejection text.** The fixed rejection text contains neither "diterima" nor "ditolak", so the applicant's bell shows it as INFO (`NotificationsWidgetComponent.StatusMessageClassified`).
- **Applicant's bell.** The notifications route exports only `POST`. Every poll the bell makes therefore ends in its failure path and leaves the bell's state unchanged. The model keeps the bell's logic for the replies it is written to handle.

## Model

| member | source | states |
|---|---|---|
| Common.DigitsOf | app/api/apply/route.ts:75 | the result holds only digits, is no longer than the input, and is the input itself when the input is all digits |
| Common.KeepPhoneChars | app/components/ApplicationForm.tsx:80 | the result holds only digits and plus signs, and equals the input exactly when the input has no other character |
| Common.DigitsOfKeepPhoneChars | app/components/ApplicationForm.tsx:80-89 | removing the non-phone characters removes no digit, so the digit count is the same before and after the filter |
| Common.KeepPhoneCharsIdempotent | app/components/ApplicationForm.tsx:80 | filtering a filtered phone changes nothing |
| Common.DecimalString | app/components/ApplicationForm.tsx:186 | `String(n)` for a safe integer `n` is non-empty and all digits; one digit exactly below 10, at most two exactly below 100 |
| Common.IntString | app/components/ApplicationForm.tsx:170 | `String(i)` for a safe integer `i` is non-empty, starts with a minus sign exactly when `i` is negative, and is all digits after that |
| Common.ParseIntRoundTrip | app/components/NotificationsWidget.tsx:26 | `parseInt(String(i), 10)` is `i` for every integer of the model, so every id that is a safe integer (below 2^53) is read back unchanged from storage |
| Common.ParseIntNoDigit | app/components/NotificationsWidget.tsx:26 | `parseInt(_, 10)` of a text with no digit in it is NaN |
| Common.Contains | app/components/NotificationsWidget.tsx:102-104 | `includes`: the empty string is in every string, a string is in whatever starts with it, and nothing is in a shorter string |
| Common.IsBlank | app/admin/page.tsx:51 | `!s.trim()` holds exactly when nothing is left once the leading white space is skipped |
| Records.ParseStatus | app/api/update-status/route.ts:17-18 | a parsed status has exactly the given name |
| Records.ParseStatusName | app/api/update-status/route.ts:17-18 | every status name parses back to its status, and only the three names parse |
| Records.PublicOf | app/api/auth/login/route.ts:13-24 | the reply carries the account's id, name, email and role (it has no password field) |
| Records.ViewOf | app/api/apply/route.ts:5-8 | the JSON view keeps id, email and account link, and its status string parses to the stored status |
| Records.ViewsOf | app/api/apply/route.ts:5-9 | the list of views has one view per applicant, position by position |
| Records.BcryptKey | app/api/auth/login/route.ts:10 | the part of a password that bcrypt reads: at most 72 bytes, a prefix of its UTF-8 encoding, and the whole encoding when that is shorter |
| Records.BcryptKeyIgnoresTail | app/api/auth/login/route.ts:10 | once a password fills 72 bytes, anything appended to it leaves the part bcrypt reads unchanged |
| ApplyRoute.CheckPhone | app/api/apply/route.ts:74-89 | passes exactly when the digit count is 10 to 15 and every character is a digit or `+`; the length message wins when both checks fail |
| ApplyRoute.ValidateApplication | app/api/apply/route.ts:35-89 | passes exactly when the reference predicate `AcceptableRequest` holds; each earlier failing check decides the message |
| ApplyRoute.OtherLevelNeedsNoFields | app/api/apply/route.ts:50-65 | a level other than Mahasiswa or SMK requires none of the level fields |
| ApplyRoute.PlusAcceptedAnywhere | app/api/apply/route.ts:84 | inserting `+` at any position of a number of digits and plus signs never changes the verdict |
| ApplyRoute.LinkedUserId | app/api/apply/route.ts:122-127 | the applicant is linked exactly when the field is a non-empty string `parseInt` reads as a number, and then to that number |
| ApplyRoute.LinkedUserIdOfString | app/components/ApplicationForm.tsx:170 | the id the form sends with `String` links to that very account |
| ApplyRoute.InsertByDate | app/api/apply/route.ts:7 | inserting into a newest-first list keeps it newest first and adds exactly that record |
| ApplyRoute.ListApplicants | app/api/apply/route.ts:5-9 | the listing is newest first and a permutation of the store |
| UpdateStatusRoute.StatusMessage | app/api/update-status/route.ts:35-40 | ACCEPTED, REJECTED and PENDING get the acceptance, rejection and generic texts |
| UpdateStatusRoute.StatusMessageInjective | app/api/update-status/route.ts:35-40 | the three statuses get three different texts |
| UpdateStatusRoute.ValidateStatusUpdate | app/api/update-status/route.ts:8-23 | passes exactly when the id is truthy and the status is one of the three names; id 0 or an empty status gives the missing-field message, any other name the invalid-status message |
| NotificationsRoute.SenderLabel | app/api/notifications/route.ts:46 | the sender is the one given, or "Admin" when none is given; never empty |
| NotificationsRoute.NumericId | app/api/notifications/route.ts:18-21 | a number is taken as is, a string through `parseInt` |
| NotificationsRoute.ValidateNotification | app/api/notifications/route.ts:11-28 | passes exactly when the id is truthy, the message non-empty and the id numeric; otherwise the missing-field or the invalid-id message |
| NotificationsRoute.BlankMessageAccepted | app/api/notifications/route.ts:11 | a message of white space only passes: the message is not trimmed |
| NotificationsRoute.TextIdAccepted | app/api/notifications/route.ts:18-21 | an id sent as the decimal string of a safe integer `n` is read as `n` |
| AuthRoutes.WithAccount | app/api/auth/register/route.ts:17-21 | the new account stores the hash of the password and the role as given; every other account is unchanged |
| AuthRoutes.Login | app/api/auth/login/route.ts:7-24 | unknown email and wrong password fail with their messages; success exactly when the hash matches, with the password-free account |
| AuthRoutes.LoginAfterRegister | app/api/auth/login/route.ts:10 | with a sound hash, signing in with the registration password returns the registered account |
| AuthRoutes.LoginOtherPasswordFails | app/api/auth/login/route.ts:10-11 | with a hash that matches only passwords agreeing on the bytes bcrypt reads, a password that differs within its first 72 bytes gets "Password salah" |
| AuthRoutes.LoginIgnoresTail | app/api/auth/login/route.ts:10-24 | with bcrypt's 72-byte truncation, a registered password of 72 bytes or more followed by any text signs in as that account |
| AuthRoutes.LoginOtherAccountUnaffected | app/api/auth/register/route.ts:19-21 | registering one account changes how no other email signs in |
| Store.Lookup | app/api/notifications/route.ts:30-32 | finds a row exactly when the id is in use, and the row found has that id |
| Store.SetStatus | app/api/update-status/route.ts:26-29 | only the status of the row with that id changes; every other field and row stays |
| Store.SetStatusLastWriteWins | app/api/update-status/route.ts:26-29 | any status may follow any other: two changes in a row leave the second |
| Store.LookupAfterSetStatus | app/api/update-status/route.ts:26-29 | the next lookup of the id sees the new status and nothing else changed; lookups of other ids are unaffected |
| Store.SetStatusKeepsKeys | app/api/update-status/route.ts:26-29 | a status change keeps every row's id, email and account link |
| Store.NewApplicant | app/api/apply/route.ts:103-127 | a new row is PENDING; it carries every submitted field under its own name, the file's name and bytes, the parsed account link, the given id and the creation time |
| Store.StatusChangeKeepsInvariant | app/api/update-status/route.ts:26-29 | a status change keeps the applicant and notification invariants |
| Store.NewNotificationKeepsInvariant | app/api/notifications/route.ts:42-48 | a notification for an existing applicant keeps the notification invariant |
| Store.NewApplicantKeepsInvariant | app/api/apply/route.ts:91-132 | an applicant with an unused email and a resolvable link keeps the invariants |
| Store.NewAccountKeepsInvariant | app/api/auth/register/route.ts:9-21 | an account with a free email keeps the account invariant and every applicant's link |
| Store.Portal.constructor | lib/prisma.ts:5-10 | the database the client connects to starts with empty, valid tables |
| Store.Portal.Apply | app/api/apply/route.ts:19-148 | a failing guard, a taken email or a dangling link refuses with its code and message and changes nothing; otherwise exactly one PENDING row is appended |
| Store.Portal.ChangeStatus | app/api/update-status/route.ts:26-29 | the applicant table becomes `SetStatus` of the old one; nothing else changes |
| Store.Portal.CreateNotification | app/api/update-status/route.ts:32-42 | exactly one notification, numbered by the counter, is appended |
| Store.Portal.UpdateStatus | app/api/update-status/route.ts:3-55 | validation failures and unknown or non-numeric ids write nothing; success overwrites the status whatever it was and appends one notification with the status's text |
| Store.Portal.SendNotification | app/api/notifications/route.ts:6-78 | validation or lookup failure writes nothing; otherwise one notification with the sender or "Admin" is appended and a mail to the applicant queued; a failed mail makes the reply a failure while the notification stays |
| Store.Portal.Register | app/api/auth/register/route.ts:4-35 | a taken email is refused and nothing is stored; otherwise the account is stored with the hashed password and the reply leaves it out |
| Browser.SessionOf | app/page.tsx:74-78 | the stored account is the one the route sent |
| Browser.Storage.constructor | app/page.tsx:20-21 | both keys start absent |
| ApplicationFormComponent.LengthHint | app/components/ApplicationForm.tsx:91-100 | no warning for 0 digits, too short for 1 to 9, valid for 10 to 15, too long above; never the character warning |
| ApplicationFormComponent.HintText | app/components/ApplicationForm.tsx:84-97 | empty exactly when there is no warning; a check mark first exactly for a valid number and a warning sign first for every problem, the two signs the form colours the text by |
| ApplicationFormComponent.LengthHintMatchesServer | app/components/ApplicationForm.tsx:96 | the valid-number warning shows exactly when the server's length check passes |
| ApplicationFormComponent.FileCheck | app/components/ApplicationForm.tsx:58-70 | a file is taken exactly when it is a PDF of at most 5 MiB; type is checked before size |
| ApplicationFormComponent.SubmitCheck | app/components/ApplicationForm.tsx:108-145 | passes exactly when every submit check does; the first failing check in the order file, required fields, phone length, level, the Mahasiswa or SMK fields, position gives its message |
| ApplicationFormComponent.ToRequest | app/components/ApplicationForm.tsx:151-163 | the request carries every field of the form under its own name (name, email, phone, level, the six level fields, position), the file and the account id |
| ApplicationFormComponent.ClientMirrorsServer | app/components/ApplicationForm.tsx:119-140 | for a filtered phone, the browser accepts a form exactly when the server accepts its request |
| ApplicationFormComponent.ClientServerOrderDiffers | app/components/ApplicationForm.tsx:118-128 | a short phone and no level get the phone message in the browser but the level message from the server |
| ApplicationFormComponent.UserIdField | app/components/ApplicationForm.tsx:165-174 | the id is sent exactly when the stored account has a truthy id, and the server links it to that id |
| ApplicationFormComponent.ApplicationForm.constructor | app/components/ApplicationForm.tsx:39-56 | the form starts empty with no error and no warning |
| ApplicationFormComponent.WithField | app/components/ApplicationForm.tsx:227-381 | `{ ...form, field: value }` gives the one field the value and leaves every other field, the phone and the file as they were |
| ApplicationFormComponent.ApplicationForm.SetField | app/components/ApplicationForm.tsx:227-381 | a text input or select writes its field of the form and nothing else; the phone keeps its invariant |
| ApplicationFormComponent.ApplicationForm.HandlePhoneChange | app/components/ApplicationForm.tsx:76-103 | the phone becomes the filtered input, and the warning that stays depends only on the digit count |
| ApplicationFormComponent.ApplicationForm.HandleFileChange | app/components/ApplicationForm.tsx:58-74 | a rejected file sets its message and leaves the form unchanged; an accepted file is stored and the error cleared |
| ApplicationFormComponent.ApplicationForm.Submit | app/components/ApplicationForm.tsx:105-174 | the first failing check sets its message and sends nothing; otherwise the request is built, and it always passes the server's checks |
| ApplicationFormComponent.ApplicationForm.Finish | app/components/ApplicationForm.tsx:181-196 | success stores the applicant id and resets every field; a refusal shows the server's message or the fallback; an exception the network message |
| AdminPageComponent.WithStatus | app/admin/page.tsx:109-119 | the filtered list is no longer than the list |
| AdminPageComponent.WithStatusMembers | app/admin/page.tsx:111 | the filtered list holds exactly the applicants of the list with that status |
| AdminPageComponent.WithStatusAppend | app/admin/page.tsx:109-112 | filtering keeps the original order: filtering a concatenation concatenates the filtered parts |
| AdminPageComponent.FilteredApplicants | app/admin/page.tsx:109-112 | ALL gives the whole list; a status gives exactly the applicants with that status, in list order (the `WithStatus` filter, whose members and order are proved in `WithStatusMembers` and `WithStatusAppend`) |
| AdminPageComponent.StatsOf | app/admin/page.tsx:114-119 | total is the length; each count is the size of that status's filter |
| AdminPageComponent.StatsSum | app/admin/page.tsx:114-119 | the three counts never exceed the total, and add up to it when every status is one of the three |
| AdminPageComponent.StatsOfStore | app/admin/page.tsx:114-119 | the counts of the list the server sends always add up to the total |
| AdminPageComponent.StatusColor | app/admin/page.tsx:121-132 | the gray default exactly for a text that names none of the three statuses |
| AdminPageComponent.StatusColorDistinct | app/admin/page.tsx:121-132 | the three statuses get three distinct colours, none of them gray; any other text gets gray |
| AdminPageComponent.DecisionOfferedForPending | app/admin/page.tsx:418-438 | the decision buttons show exactly for a PENDING application |
| AdminPageComponent.AdminGate | app/admin/page.tsx:83-104 | only a readable stored account with role ADMIN is admitted; a wrong role is also alerted |
| AdminPageComponent.AdminPage.constructor | app/admin/page.tsx:6-13 | the page starts with no list, filter ALL, nothing selected |
| AdminPageComponent.AdminPage.Mount | app/admin/page.tsx:83-107 | the list is fetched exactly when the guard admits; otherwise the browser goes home |
| AdminPageComponent.AdminPage.ReceiveApplicants | app/admin/page.tsx:16-27 | a list replaces the previous one; an error keeps it |
| AdminPageComponent.AdminPage.Decide | app/admin/page.tsx:418-438 | a decision is posted only for a selected pending application, with its id and the status name |
| AdminPageComponent.AdminPage.DecisionFinished | app/admin/page.tsx:37-41 | on success the detail closes and the list is fetched again; otherwise nothing changes |
| AdminPageComponent.AdminPage.SendNotification | app/admin/page.tsx:49-61 | nothing is sent without a selection or with a blank message (which alerts); otherwise the untrimmed message is sent |
| AdminPageComponent.AdminPage.NotificationFinished | app/admin/page.tsx:63-72 | one alert per outcome; the message box is cleared on success only |
| AdminPageComponent.AdminPage.Logout | app/admin/page.tsx:78-81 | only the stored account is removed; the browser goes home |
| NotificationsWidgetComponent.ResolveId | app/components/NotificationsWidget.tsx:22-27 | the numeric prop first, else the stored id through `parseInt`, else 0 |
| NotificationsWidgetComponent.ShouldFetch | app/components/NotificationsWidget.tsx:29 | neither falsy number, 0 or NaN, is fetched for, and every other id is |
| NotificationsWidgetComponent.StoredIdFetched | app/components/NotificationsWidget.tsx:22-35 | the id the form stores is the one fetched for when no prop is given |
| NotificationsWidgetComponent.BadgeLabel | app/components/NotificationsWidget.tsx:73-76 | hidden exactly at 0, "99+" exactly above 99, the number in between |
| NotificationsWidgetComponent.Classify | app/components/NotificationsWidget.tsx:102-106 | ACCEPTED exactly when "diterima" occurs; REJECTED when only "ditolak" occurs; INFO when neither does |
| NotificationsWidgetComponent.KindLabel | app/components/NotificationsWidget.tsx:102-124 | each kind has its own heading (accepted, rejected, update) and its own tag (DITERIMA, DITOLAK, INFO) |
| NotificationsWidgetComponent.AcceptedTextClassified | app/components/NotificationsWidget.tsx:102-106 | the acceptance text is shown as ACCEPTED |
| NotificationsWidgetComponent.RejectedTextClassified | app/api/update-status/route.ts:39 | the rejection text contains neither keyword and is shown as INFO |
| NotificationsWidgetComponent.UpdatedTextClassified | app/api/update-status/route.ts:40 | the generic text is shown as INFO |
| NotificationsWidgetComponent.StatusMessageClassified | app/components/NotificationsWidget.tsx:119-124 | of the texts a status change writes, only the acceptance gets its own kind |
| NotificationsWidgetComponent.StatusMessageLabel | app/components/NotificationsWidget.tsx:119-124 | a status notification is tagged DITERIMA for an acceptance and INFO for a rejection or a reset to PENDING, never DITOLAK |
| NotificationsWidgetComponent.NotificationsWidget.constructor | app/components/NotificationsWidget.tsx:12-16 | empty list, closed, count 0, first load pending |
| NotificationsWidgetComponent.NotificationsWidget.StartPoll | app/components/NotificationsWidget.tsx:18-35 | with no id to fetch for the list empties, the count resets and the first load ends; otherwise nothing changes and the id is returned |
| NotificationsWidgetComponent.NotificationsWidget.FinishPoll | app/components/NotificationsWidget.tsx:37-51 | a failure changes nothing; a non-array counts as empty; opens only after the first load when the list grew; the count becomes the length |
| NotificationsWidgetComponent.NotificationsWidget.Toggle | app/components/NotificationsWidget.tsx:69 | the dropdown flips and nothing else changes |
| AdminNotificationsWidgetComponent.PendingPreview | app/components/AdminNotificationsWidget.tsx:23-24 | the first `min(10, pending)` pending applications, in list order |
| AdminNotificationsWidgetComponent.PreviewOnlyPending | app/components/AdminNotificationsWidget.tsx:23 | everything kept is a pending application of the list |
| AdminNotificationsWidgetComponent.PreviewKeepsAllWhenFew | app/components/AdminNotificationsWidget.tsx:23-24 | with ten or fewer pending applications, all are kept |
| AdminNotificationsWidgetComponent.PreviewIgnoresOlder | app/components/AdminNotificationsWidget.tsx:24 | once the newest part of the list holds ten pending applications, older ones change nothing |
| AdminNotificationsWidgetComponent.AdminBadgeNeverOverflows | app/components/AdminNotificationsWidget.tsx:48-51 | the "99+" label is unreachable; the badge hides exactly when nothing is pending |
| AdminNotificationsWidgetComponent.AdminNotificationsWidget.constructor | app/components/AdminNotificationsWidget.tsx:13-14 | empty and closed |
| AdminNotificationsWidgetComponent.AdminNotificationsWidget.Poll | app/components/AdminNotificationsWidget.tsx:17-30 | a list is replaced by its pending preview; a failure keeps the previous one |
| AdminNotificationsWidgetComponent.AdminNotificationsWidget.Toggle | app/components/AdminNotificationsWidget.tsx:44 | the dropdown flips and nothing else changes |
| HomePageComponent.Endpoint | app/page.tsx:58 | sign-in posts to the login route, both register modes to the register route |
| HomePageComponent.RoleFor | app/page.tsx:66 | the role is ADMIN exactly in register-admin mode, USER otherwise |
| HomePageComponent.RedirectTarget | app/page.tsx:91 | "/admin" exactly for role ADMIN, "/" otherwise |
| HomePageComponent.RegisterThenSignInRedirect | app/page.tsx:66-91 | registering in register-admin mode and signing in leads to "/admin"; any other mode leads home |
| HomePageComponent.Matches | app/page.tsx:37-40 | the applicant linked to the account always matches, and any match shares the account's link or its email |
| HomePageComponent.FirstMatch | app/page.tsx:37-40 | the first applicant that matches, or none when no applicant matches |
| HomePageComponent.MatchPrefersLink | app/page.tsx:38 | when both ids are present, the ids alone decide, whatever the emails |
| HomePageComponent.ShowsWidget | app/page.tsx:251-252 | the bell is shown exactly to a USER whose applicant id passes the bell's own fetch test |
| HomePageComponent.ShownWidgetFetches | app/page.tsx:251-252 | whenever the page shows the bell, the bell has an id to fetch for |
| HomePageComponent.HomePage.constructor | app/page.tsx:7-15 | signed out, dialog closed in sign-in mode, empty form |
| HomePageComponent.HomePage.RestoreAccount | app/page.tsx:20-28 | a readable stored account signs the page in; unreadable text signs it out |
| HomePageComponent.HomePage.CheckAuth | app/page.tsx:18-53 | a stored applicant id wins; without one, the lookup runs only for a USER; unreadable text ends it signed out |
| HomePageComponent.HomePage.MatchStoredUser | app/page.tsx:33-48 | the first match with a non-zero id is stored and shown; no match or a failed fetch changes nothing |
| HomePageComponent.HomePage.Submit | app/page.tsx:57-69 | the route and role follow the mode |
| HomePageComponent.HomePage.ReceiveAuthReply | app/page.tsx:71-95 | success stores the route's account (or the form's fallback), clears the form and schedules the redirect by role; failure shows the message |
| HomePageComponent.HomePage.HandleLogout | app/page.tsx:98-105 | both stored keys and the signed-in state are cleared, so the bell is hidden |

## Left out

- Rendering, layout, animations, the `loading`/`updating`/`sendingNotif` flags and the menus' `open` flags: they only affect what is drawn.
- Timers: the 10-second polling, the 2-second redirect delay and the 5-second success banner. The model takes one poll or one event at a time, and the scheduled redirect is a field.
- Request parsing and responses:
  - multipart and JSON bodies are typed parameters;
  - a JSON reply is the `Reply` datatype, or an outcome datatype in the browser.
- Absent form fields. A text field the form omits is stored as `null` in the source and as the empty string here. Both are falsy to every check.
- Common.ParseIntRoundTrip: ids and counters are unbounded integers. JavaScript numbers are doubles, and three consequences are left out:
  - `String` writes numbers from 1e21 up in exponent form, so `parseInt(String(i), 10)` gives back `i` only below that;
  - `parseInt` rounds a text beyond 2^53 to a neighbouring double, so such a text id names another row;
  - the database column has a range, and an id outside it makes the store throw, so the route answers 500 where the model answers 404 "Applicant not found".
- NotificationsRoute.NumericId: reads a text id exactly, with no rounding beyond 2^53 (see the line above).
- NotificationsRoute.TextIdAccepted: holds for every integer of the model; in the source it holds for safe integers only (see above).
- The ids in a JSON body are integers, strings or absent. Fractional numbers, booleans and objects are not modelled.
- The clock: the creation time of a row is a parameter.
- The transport's delivery of a mail: the outcome is a parameter.
- bcrypt's salt and cost: the hash is an abstract pair of functions. Three properties of bcrypt are stated assumptions:
  - a hash matches the password it was made from;
  - it matches no password that differs within the first 72 UTF-8 bytes. The assumption is meant for passwords without the NUL character. bcryptjs ends the key with a NUL and repeats it to fill the bytes it reads, so "a" and "a" + NUL + "a" hash alike although their first 72 bytes differ;
  - the comparison reads only those 72 bytes.
- Records.Utf8: a string is a sequence of Unicode scalar values, so a lone UTF-16 surrogate, which a JavaScript string can hold, is not modelled.
- The database failures behind the generic 500 replies. Only those the logic causes are modelled:
  - an unknown or non-numeric id in a status change;
  - a dangling account link on an application.
- Concurrency between requests, and the database's own uniqueness constraint on account emails: the routes check before they insert.
- `getApplicants` storing a JSON error object in place of the list: an error reply is treated like a failed fetch.
- The `onApplySuccess` callback, the filter and selection setters of the review page, the phone input's length limit, date formatting and the file size display (floating point).
- Listing notifications on the server: the notifications route has no `GET`, so the applicant's bell is modelled against the replies it is written for.
- `app/api/auth/me/route.ts`, the read-only pages and the database and mail tooling scripts are not part of this model.
