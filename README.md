# Awaaz: a verified model of the civic-issue portal's server logic

Awaaz is a Next.js application in which citizens report civic issues ("tickets") and an
administrator triages them. This project models its decision logic in Dafny and proves
properties of the model:

- the ticket API (create, list, update) and the ticket schema;
- the account handlers: register, citizen login, admin login, `me`, change-password
  and update-profile, the two admin seeders and the admin user list;
- the session guards: `verifyAdminToken`/`adminMiddleware`, the `/api/profile`
  middleware and admin-verify;
- the cached MongoDB connection;
- the filters, counters and edit state of three client pages.

The external libraries are replaced by small stand-ins:

- **bcrypt** (`bcrypt.dfy`) is a symbolic digest. `Compare` accepts exactly the password
  a digest was made from.
- **jsonwebtoken** (`jwt.dfy`) is a signed record of claims, key, issue time and
  lifetime. `Verify` succeeds for a non-empty key equal to the signing key, before expiry.
  Any other cookie text is `Raw` and never verifies.
- **The environment** (`environment.dfy`) holds `MONGODB_URI`, `JWT_SECRET` and
  `NEXTAUTH_SECRET` as optional strings. JavaScript's `a || b` skips unset and empty
  values alike. The three key choices of the source are three functions:
  - `SessionKey`: JWT_SECRET, then NEXTAUTH_SECRET, then the fallback;
  - `AdminKey`: NEXTAUTH_SECRET, then the fallback;
  - `ProfileKey`: JWT_SECRET alone.
- **Collections** are sequences in insertion order. That is the order `findOne`,
  `deleteOne` and `find` observe. A collection with unique emails (or ids) is what a
  map from email to user would give.
- **The connection outcome** is a `dbUp` parameter of each handler. `mongodb.dfy` models
  the cache that produces it.
- **Mongoose behaviour the handlers rely on:**
  - the `trim` and `lowercase` setters run on new documents, on query filters and on
    updates;
  - `findByIdAndUpdate` runs validators only when `runValidators` is passed;
  - keys whose value is `undefined` are dropped from an update;
  - `timestamps` refresh `updatedAt` on every update.

Stateful code is modelled as classes:

- `UserStore` and `TicketStore` are the collections that handlers append to and rewrite.
- `ConnectionCache` is the module-level `cached` record.
- `EditSession` is the React state of the ticket page.

Read-only handlers are functions from the request, the environment and the collection to
a `Response` (status, body, cookies).

Every handler is modelled branch by branch, in the source's order and with its
messages. Some consequences the proofs make explicit:

- A citizen's session token passes the `/api/profile` middleware only when the login key
  and the middleware key coincide.
- With `JWT_SECRET` unset, change-password and update-profile refuse every token with 500.
- Tickets carry two vocabularies of status:
  - the schema's "open", "in-progress", "resolved" and "closed";
  - the admin pages' "open", "in_progress", "resolved" and "invalid".
  The ticket update runs no validator, so the pages' values are stored, and the page
  counters leave the schema's values uncounted.

## Model

| member | source | states |
|---|---|---|
| Text.Trim | src/models/User.ts:23 | the `trim` setter: the result is an infix of the input with only whitespace before and after it, and itself starts and ends with no whitespace |
| Text.TrimFixesTrimmed | src/models/User.ts:23 | trimming changes a string exactly when it has whitespace at an end |
| Text.TrimEmpty | src/models/Ticket.ts:43-44 | a string trims to empty exactly when every character is whitespace |
| Text.LowerTrimCommute | src/models/User.ts:22-23 | the `lowercase` and `trim` setters commute |
| Text.LowerForgetsCase | src/app/dashboard/community-issues/page.tsx:92-95 | lower-casing an upper-cased string gives the same as lower-casing the original |
| Text.Lower | src/app/dashboard/community-issues/page.tsx:93-95 | `toLowerCase`: same length, each character mapped to its lower-case form (ASCII letters) |
| Text.Upper | src/app/admin-dashboard/tickets/page.tsx:216 | `toUpperCase`: same length, each character mapped to its upper-case form (ASCII letters) |
| Text.StartsWith | src/middleware.ts:6 | a definition, no contract: `startsWith`, the input's first characters equal the prefix; its consequences are stated by Middleware.Guard and Middleware.RawPrefixTest |
| Text.Includes | src/app/dashboard/community-issues/page.tsx:93-95 | `includes` holds exactly when the needle occurs at some position |
| Text.ReplaceFirst | src/app/admin-dashboard/tickets/page.tsx:216 | `replace` with a string pattern rewrites the first occurrence only; every other character is kept |
| Sequences.Filter | src/app/admin-dashboard/tickets/page.tsx:119-122 | `Array.prototype.filter`: the result is no longer than the input and holds only input elements that pass the test |
| Sequences.Map | src/app/api/admin/users/route.ts:10-15 | the projection applied to each user: same length, and each entry is the projection of the user at the same index |
| Sequences.FilterKeeps | src/app/admin-dashboard/tickets/page.tsx:119-122 | `filter` keeps every element that satisfies the test |
| Sequences.FilterAppend | src/app/admin-dashboard/tickets/page.tsx:119-122 | `filter` keeps the original order: it distributes over concatenation |
| Sequences.FindFirst | src/app/api/auth/register/route.ts:30 | `findOne` returns a matching element, and returns nothing only when no element matches |
| Sequences.RemoveFirst | src/app/api/seed-admin/route.ts:21 | `deleteOne` removes exactly the first matching element and keeps the others in order, or changes nothing when none matches |
| Sequences.RemoveFirstElements | src/app/api/seed-admin/route.ts:21 | `deleteOne` adds nothing and removes nothing that does not match |
| Sequences.SortNewestFirst | src/app/api/tickets/route.ts:53 | `sort({ createdAt: -1 })` orders by creation time descending and is a permutation of its input |
| Bcrypt.CompareHash | src/app/api/auth/login/route.ts:44 | `compare` accepts the password a digest was made from and nothing else |
| Jwt.Verify | src/app/api/auth/me/route.ts:27 | verification succeeds only for a signed token, with a non-empty key equal to the signing key, strictly before its issue time plus its lifetime, and yields its claims |
| Jwt.VerifySigned | src/app/api/auth/login/route.ts:58-66 | a token signed with a key verifies under that key until its lifetime runs out |
| Jwt.VerifyOtherKey | src/middleware.ts:17 | a token never verifies under a key other than its signing key |
| Environment.SessionKey | src/app/api/auth/login/route.ts:53-56 | JWT_SECRET if set and non-empty, else NEXTAUTH_SECRET, else "awaaz-secret-key"; never empty |
| Environment.AdminKey | src/app/api/auth/admin-login/route.ts:76 | NEXTAUTH_SECRET if set and non-empty, else "awaaz-secret-key"; JWT_SECRET is never consulted |
| Environment.ProfileKey | src/app/api/auth/change-password/route.ts:15 | JWT_SECRET only; empty, and so unusable, when it is unset |
| Environment.SessionAndAdminKeysAgree | src/app/api/auth/login/route.ts:53-56 | the login key and the admin key coincide exactly when JWT_SECRET is unset or equal to the admin key |
| Environment.ProfileAndSessionKeysAgree | src/app/api/auth/change-password/route.ts:15 | the profile handlers use the login key exactly when JWT_SECRET is set |
| UserModel.Conforms | src/models/User.ts:16-56 | a definition, no contract: the schema's required, enum, trim and minlength rules as one predicate (uniqueness is the collection's `Consistent`); UserModel.BuildConforms states what it accepts |
| UserModel.ProfileOf | src/app/api/auth/me/route.ts:47-57 | a definition, no contract: the seven echoed fields of a user, a record type that has no password field |
| UserModel.EmailKey | src/models/User.ts:18-24 | the stored and queried form of an email is lower-case and trimmed, and an email already in that form is kept |
| UserModel.BuildConforms | src/models/User.ts:16-56 | a new user passes validation exactly when its email and trimmed name are non-empty and its type is admin or citizen; the 6-character minimum applies to the digest and always holds |
| UserModel.FindByEmail | src/app/api/auth/login/route.ts:22 | `findOne({ email })` finds a user whose email is the normalised query, or reports that none has it |
| UserModel.FindById | src/app/api/auth/me/route.ts:37 | `findById` finds a user with that id, or reports that none has it |
| UserModel.FindByEmailUnique | src/models/User.ts:21 | with unique emails, a lookup finds the one user with that email |
| UserModel.FindByIdUnique | src/app/api/auth/me/route.ts:37 | with unique ids, `findById` finds the one user with that id |
| UserModel.InsertKeepsConsistent | src/app/api/auth/register/route.ts:42-52 | saving a valid user with a fresh id and an unused email keeps emails and ids unique |
| UserModel.ReplaceKeepsConsistent | src/app/api/auth/change-password/route.ts:58-60 | rewriting a user in place, with its id, email and validity kept, keeps the collection consistent |
| UserModel.RemoveKeepsConsistent | src/app/api/seed-admin/route.ts:21 | deleting a user keeps the collection consistent |
| UserModel.RemoveFirstKeepsConsistent | src/app/api/seed-admin/route.ts:21 | `deleteOne` on any filter keeps the collection consistent and leaves only users that were there |
| UserModel.RemoveFirstClearsEmail | src/app/api/seed-admin/route.ts:21 | in a collection with unique emails, `deleteOne({ email })` leaves no user with that email |
| UserModel.UserStore.Add | src/app/api/auth/register/route.ts:52 | `save()` of a valid document with the next id and an unused email appends it and keeps the collection consistent |
| UserModel.UserStore.constructor | src/models/User.ts:62-63 | the collection starts empty and consistent |
| RegisterRoute.Precheck | src/app/api/auth/register/route.ts:14-27 | 400 "Missing required fields" when any of the four fields is missing or empty; then 400 for a citizen without a phone number; nothing otherwise |
| RegisterRoute.Candidate | src/app/api/auth/register/route.ts:39-50 | the new user stores `Hash(password, 12)`, the normalised email and the requested type as given, and is unverified |
| RegisterRoute.Register | src/app/api/auth/register/route.ts:6-77 | 500 without a database; the prechecks' 400s; 409 for a taken email; 201 exactly when every check passes and the document validates, appending one user; every other outcome leaves the store unchanged |
| LoginRoute.Login | src/app/api/auth/login/route.ts:7-100 | 500, 400, 401 for an unknown email, 403 for an admin, 403 for a non-citizen, 401 for a wrong password; 200 only for a citizen with the right password, with a 7-day token of the user's claims under the login key in an httpOnly strict cookie, and a profile without the password |
| LoginRoute.SessionCookie | src/app/api/auth/login/route.ts:69-90 | a definition, no contract: the `token` cookie, httpOnly, sameSite strict, maxAge 604800, no path; LoginRoute.Login states that a 200 sets exactly this cookie |
| LoginRoute.UnknownEmailLooksLikeWrongPassword | src/app/api/auth/login/route.ts:22-50 | an unknown email and a wrong password get the identical 401 "Invalid credentials" |
| LoginRoute.AdminRefusedWhateverPassword | src/app/api/auth/login/route.ts:31-36 | an admin account gets the same 403 whatever password is sent |
| LoginRoute.VerificationIgnored | src/app/api/auth/login/route.ts:43-66 | flipping a user's `isVerified` flag never changes the login's status |
| LoginRoute.FindByEmailIgnoresVerified | src/app/api/auth/login/route.ts:22 | flipping `isVerified` does not change which user the email lookup finds |
| LoginRoute.TokenVerifiesForSevenDays | src/app/api/auth/login/route.ts:58-66 | the issued token verifies under the login key for the following seven days |
| AdminLoginRoute.FindAuthorizedAdmin | src/app/api/auth/admin-login/route.ts:36-39 | the lookup finds a user with the authorized email and type admin, or none exists |
| AdminLoginRoute.AdminLogin | src/app/api/auth/admin-login/route.ts:10-124 | 500, 400, 403 for any email other than "admin@awaaz.gov.in", 401 with no such admin, 401 for a wrong password, 403 when unverified; 200 only with the admin's password, the admin claims under the admin key for 24 hours, the same token in `admin_token` (path "/") and `token`, and `adminAccess` true |
| AdminLoginRoute.Authenticate | src/app/api/auth/admin-login/route.ts:48-124 | once the admin is found: 401 for a wrong password, then 403 when unverified, and 200 exactly with the right password on a verified account, with the admin token in both cookies |
| AdminLoginRoute.AdminCookies | src/app/api/auth/admin-login/route.ts:100-114 | a definition, no contract: the same token as `admin_token` with path "/" and as `token`, both httpOnly, strict, maxAge 86400; AdminLoginRoute.AdminLogin states that a 200 sets exactly these |
| AdminLoginRoute.OtherEmailsNeverReachTheStore | src/app/api/auth/admin-login/route.ts:17-33 | a request without the authorized email gets the same answer whatever the collection holds |
| AdminLoginRoute.PasswordCheckedBeforeVerification | src/app/api/auth/admin-login/route.ts:49-65 | with a wrong password the answer is 401 whether or not the admin is verified; 403 only after a correct one |
| AdminAuth.ChosenToken | src/lib/adminAuth.ts:15-21 | `admin_token` when non-empty, else `token` when non-empty, else none |
| AdminAuth.VerifyAdminToken | src/lib/adminAuth.ts:12-42 | the chosen token's claims exactly when it verifies under the admin key and claims type admin, the authorized email and `isAdmin === true`; otherwise none, never an error |
| AdminAuth.AdminTokenShadowsToken | src/lib/adminAuth.ts:15-17 | with a usable `admin_token`, the `token` cookie is never consulted |
| AdminAuth.CitizenTokenNeverAdmin | src/lib/adminAuth.ts:30-34 | a token without `isAdmin` is never accepted |
| AdminAuth.AdminMiddleware | src/lib/adminAuth.ts:44-55 | 403 "Access denied. Admin privileges required." exactly when verification yields nothing, pass-through otherwise |
| AdminVerifyRoute.AdminVerify | src/app/api/auth/admin-verify/route.ts:4-28 | 401 "Invalid admin session" exactly when verification fails; otherwise the token's id, email and type, the fixed official name, `isVerified` true and `adminAccess` true |
| AdminVerifyRoute.EchoIsAuthorizedAdmin | src/app/api/auth/admin-verify/route.ts:16-21 | a successful echo always names the authorized admin email and type admin |
| Middleware.Guard | src/middleware.ts:4-29 | paths outside the "/api/profile" prefix pass; on it, 401 without a `token` cookie, 401 when it fails under the admin key, pass otherwise |
| Middleware.RawPrefixTest | src/middleware.ts:6 | the function's test is a raw string prefix: when the middleware runs on "/api/profiles" it gates it, and it does not gate "/api/Profile" |
| Middleware.ClaimsNotInspected | src/middleware.ts:16-19 | rewriting a token's claims never changes the middleware's answer |
| MeRoute.GetMe | src/app/api/auth/me/route.ts:12-71 | 401 "No token provided", then 401 "Invalid token" under the login key, exactly the 401s; then 500 without a database, 503 on timeout, 404; 200 with the seven profile fields exactly when the user is found |
| MeRoute.NoDatabaseBeforeToken | src/app/api/auth/me/route.ts:14-33 | a missing or invalid token gets the same answer whatever the database's state |
| ChangePasswordRoute.Decide | src/app/api/auth/change-password/route.ts:7-51 | 401 without a token; 500 when it fails under JWT_SECRET; 400 for missing passwords; 400 for a new password under 6 characters; 500 without a database; 404; 400 for a wrong current password; otherwise overwrite the token's user with `Hash(new, 12)` |
| ChangePasswordRoute.UnsetSecretRefusesEveryToken | src/app/api/auth/change-password/route.ts:15 | with JWT_SECRET unset, every token gets 500 |
| ChangePasswordRoute.BodyCheckedBeforeDatabase | src/app/api/auth/change-password/route.ts:20-34 | missing or short passwords get 400 whatever the database's state |
| ChangePasswordRoute.ChangePassword | src/app/api/auth/change-password/route.ts:54-64 | on success only the password (and `updatedAt`) of that user changes; on any refusal nothing is written |
| UpdateProfileRoute.Patch | src/app/api/auth/update-profile/route.ts:21-28 | the fields sent among name, phone and address are replaced by their trimmed values; email, type, password, verification and creation time are kept |
| UpdateProfileRoute.PatchKeepsConforming | src/app/api/auth/update-profile/route.ts:28 | a patch that passes the update validators keeps a valid user valid |
| UpdateProfileRoute.UpdateProfile | src/app/api/auth/update-profile/route.ts:6-54 | 401 without a token; 500 when it fails under JWT_SECRET, without a database or on a failed validator; 404 for an unknown id; 200 exactly when the user exists and the patch validates, replacing that user by the patched one and returning it without the password |
| SeedAdminRoute.SeededAdmin | src/app/api/seed-admin/route.ts:24-32 | the seeded document has the authorized email, type admin, verified, the digest of the fixed password, and passes validation |
| SeedAdminRoute.SeedingKeepsConsistent | src/app/api/seed-admin/route.ts:21-34 | deleting the legacy admin and saving the new one keeps the collection consistent, and the new admin is then found by email |
| SeedAdminRoute.Reseed | src/app/api/seed-admin/route.ts:21-34 | the write of a seeding: the collection becomes the legacy admin's removal plus the new admin, stays consistent, and then holds the authorized email |
| SeedAdminRoute.SeedAdmin | src/app/api/seed-admin/route.ts:6-53 | 500 without a database; 200 with no write when any user has the authorized email; otherwise the legacy admin is deleted, the new admin appended, 201 with the credentials; afterwards the authorized email is always taken, and after a 201 no account has the legacy email |
| SeedAdminRoute.LegacyAdminRemoved | src/app/api/seed-admin/route.ts:21 | after a seeding no account has the legacy address "admin@awaaz.gov", since the collection held at most one |
| SeedAdminRoute.SeedTwice | src/app/api/seed-admin/route.ts:11-18 | a second seeding answers 200 and leaves the collection as the first left it |
| SeedAdminScript.LegacyAdmin | scripts/seed-admin.js:18-26 | the script's document has "admin@awaaz.gov", type admin, verified, the digest of "admin123", and passes validation |
| SeedAdminScript.SeedAdminUser | scripts/seed-admin.js:5-37 | exit code 0 on every path; with a database, the legacy admin is appended unless its email is taken, and is afterwards present |
| SeedAdminScript.RunTwice | scripts/seed-admin.js:10-15 | two runs leave the collection unchanged or with the one legacy admin added, never a second copy |
| AdminUsersRoute.ListUsers | src/app/api/admin/users/route.ts:5-26 | 500 "Failed to fetch users" without a database; otherwise every user, without the password, newest first, with no caller check |
| AdminUsersRoute.ListsEveryUser | src/app/api/admin/users/route.ts:10-16 | every stored user is listed, and every listed entry is a stored user's projection |
| MongoDb.GetMongoUri | src/lib/mongodb.ts:4-12 | the URI when set and non-empty, otherwise the "Please define the MONGODB_URI" error |
| MongoDb.ConnectStep | src/lib/mongodb.ts:44-105 | a call dials only when there is neither a connection nor a promise and the URI is set; a connected outcome is the stored connection, a thrown one leaves none |
| MongoDb.ConnectStepSettles | src/lib/mongodb.ts:96-102 | sequential calls keep the record either empty or holding a connection with the promise that produced it |
| MongoDb.ConnectionIsSticky | src/lib/mongodb.ts:45-47 | once connected, every call returns that connection, changes nothing and does not dial |
| MongoDb.MissingUriChangesNothing | src/lib/mongodb.ts:49-51 | a missing URI throws before a promise is stored and leaves the record as it was |
| MongoDb.FailureAllowsRetry | src/lib/mongodb.ts:98-102 | a failed dial resets the record to empty, rethrows the reason, and the next call dials again |
| MongoDb.PendingPromiseReused | src/lib/mongodb.ts:49 | a pending promise is awaited, never duplicated |
| MongoDb.SuccessStoresConnection | src/lib/mongodb.ts:97-104 | a successful dial stores the connection to the configured URI |
| MongoDb.DialsUntilConnected | src/lib/mongodb.ts:44-105 | over any sequence of calls the record stays settled, a connected record never dials again, and one reachable attempt with a URI leaves it connected |
| MongoDb.ConnectionCache.constructor | src/lib/mongodb.ts:35-42 | the record is created with both fields null and no dial made |
| MongoDb.ConnectionCache.ConnectDB | src/lib/mongodb.ts:44-105 | assigns and resets `conn` and `promise` as the step function says, keeps the record settled (no connection without its resolved promise), and counts a dial exactly when it starts one |
| TicketModel.Conforms | src/models/Ticket.ts:39-141 | a definition, no contract: the schema's required, trim, maxlength and enum rules as one validator predicate; TicketModel.NewTicket and TicketsRoute.UpdateBypassesSchema state what it accepts |
| TicketModel.NewTicket | src/models/Ticket.ts:39-141 | a ticket is created exactly when title (1–200), description (1–2000), category (one of six), priority and a non-blank address pass after trimming; it is then valid, "open", unresolved, unvoted and uncommented |
| TicketModel.BlankTitleRejected | src/models/Ticket.ts:41-46 | a title of blanks only fails `required` |
| TicketModel.MissingFieldRejected | src/models/Ticket.ts:41-91 | a missing title, description, category or location, or a category outside the enum, rejects the ticket |
| TicketModel.TicketStore.constructor | src/models/Ticket.ts:150-151 | the collection starts empty with unique ids |
| TicketsRoute.DraftOf | src/app/api/tickets/route.ts:10-22 | the priority is always "medium" and the images default to none; the other fields are passed on as sent |
| TicketsRoute.Create | src/app/api/tickets/route.ts:6-37 | 201 exactly with a database and a valid ticket, which is appended and returned; otherwise 500 "Failed to submit issue. Please try again." and no write |
| TicketsRoute.CreateIgnoresPriority | src/app/api/tickets/route.ts:14-18 | the priority sent never changes the ticket; a created ticket is "medium", "open" and unresolved |
| TicketsRoute.Restricted | src/app/api/tickets/route.ts:44-50 | a definition, no contract: the filter applies exactly when `admin` is not "true" and `userEmail` is non-empty; TicketsRoute.ListedIffOwned states its effect |
| TicketsRoute.Selected | src/app/api/tickets/route.ts:44-50 | only tickets of the requested email when the caller is not `admin=true` and sends a non-empty email |
| TicketsRoute.ListTickets | src/app/api/tickets/route.ts:40-63 | 500 "Internal server error" without a database; otherwise stored tickets only, newest first, of the requested email when restricted |
| TicketsRoute.ListsEverySelected | src/app/api/tickets/route.ts:44-53 | the list is a permutation of the selected tickets |
| TicketsRoute.ListedIffOwned | src/app/api/tickets/route.ts:44-50 | a stored ticket is listed exactly when the query is unrestricted or the ticket carries the requested email |
| TicketsRoute.ApplyUpdate | src/app/api/tickets/route.ts:71-78 | a sent status overwrites; a truthy resolution is written trimmed, otherwise kept; `updatedAt` is refreshed; no other field changes |
| TicketsRoute.ApplyUpdateIdempotent | src/app/api/tickets/route.ts:71-78 | sending the same update twice changes nothing more |
| TicketsRoute.UpdateBypassesSchema | src/app/api/tickets/route.ts:76-78 | a valid ticket stays valid exactly when the sent status is in the schema enum and the resolution fits 1000 characters; nothing else stops an invalid write |
| TicketsRoute.Update | src/app/api/tickets/route.ts:66-91 | 500 "Failed to update ticket" without a database; otherwise 200, with the updated ticket written in place, or with no ticket and no write for an unknown id |
| Issues.ByStatus | src/app/admin-dashboard/tickets/page.tsx:119-122 | "all" returns the list; any other filter exactly the issues with that status |
| Issues.ByStatusKeepsOrder | src/app/admin/page.tsx:105-108 | the filter keeps the list's order |
| Issues.CountsPartition | src/app/admin-dashboard/tickets/page.tsx:124-130 | the counts of four distinct statuses plus the issues of any other status add up to the list's length |
| TicketsPage.StatsOf | src/app/admin-dashboard/tickets/page.tsx:124-130 | the total is the length and each count is the status filter's length |
| TicketsPage.StatsAccountForEveryIssue | src/app/admin-dashboard/tickets/page.tsx:124-130 | the four counts sum to the total minus the issues of unknown status, hence at most the total |
| TicketsPage.StyleOf | src/app/admin-dashboard/tickets/page.tsx:100-113 | "open", "in_progress", "resolved" and "invalid" get their own badge style each, and the default style goes exactly to every other status |
| TicketsPage.BadgeText | src/app/admin-dashboard/tickets/page.tsx:216 | the first underscore becomes a blank and every other character is upper-cased |
| TicketsPage.LaterUnderscoresKept | src/app/admin-dashboard/tickets/page.tsx:216 | underscores after the first remain in the badge |
| TicketsPage.LocationLabel | src/app/admin-dashboard/tickets/page.tsx:287-289 | never empty; "Address not provided" when the location or its address is missing or empty |
| TicketsPage.UpdateBody | src/app/admin-dashboard/tickets/page.tsx:62-66 | the status is sent; an empty resolution is sent as undefined |
| TicketsPage.EmptyMessageKeepsResolution | src/app/admin-dashboard/tickets/page.tsx:65 | saving with an empty message sets the status and keeps the ticket's resolution |
| TicketsPage.EditSession.constructor | src/app/admin-dashboard/tickets/page.tsx:26-28 | no ticket is being edited, and the chosen status and the message are empty |
| TicketsPage.EditSession.StartEditing | src/app/admin-dashboard/tickets/page.tsx:82-86 | sets the edited id and the current status, clears the message |
| TicketsPage.EditSession.CancelEditing | src/app/admin-dashboard/tickets/page.tsx:88-92 | clears the id, the status and the message |
| TicketsPage.EditSession.ChooseStatus | src/app/admin-dashboard/tickets/page.tsx:220-223 | while editing, the select sets the chosen status and nothing else |
| TicketsPage.EditSession.TypeResolution | src/app/admin-dashboard/tickets/page.tsx:306-313 | while editing, the textarea sets the message and nothing else |
| TicketsPage.EditSession.SaveChanges | src/app/admin-dashboard/tickets/page.tsx:69-98 | sends the update only while editing; on success clears the id and the message, on failure keeps them; the message is empty whenever nothing is edited |
| AdminPage.StatsOf | src/app/admin/page.tsx:110-115 | the total is the length and each of the three counts is the status filter's length |
| AdminPage.StatsLeaveOutInvalid | src/app/admin/page.tsx:110-115 | the three counts fall short of the total by the "invalid" issues and those of unknown status |
| AdminPage.StatusClass | src/app/admin/page.tsx:88-99 | the three known classes, and "" exactly for any other status |
| AdminPage.StatusChange | src/app/admin/page.tsx:74 | only the id and the status are sent |
| AdminPage.StatusChangeKeepsResolution | src/app/admin/page.tsx:67-75 | a status change from this page sets the status and keeps the resolution |
| CommunityIssuesPage.Visible | src/app/dashboard/community-issues/page.tsx:90-98 | an issue is shown exactly when it matches the status filter and the search; never more than the list |
| CommunityIssuesPage.EverythingShownByDefault | src/app/dashboard/community-issues/page.tsx:90-98 | filter "all" with an empty search shows the whole list |
| CommunityIssuesPage.SearchIgnoresCase | src/app/dashboard/community-issues/page.tsx:92-95 | searching in capitals or small letters shows the same issues |
| CommunityIssuesPage.VisibleKeepsOrder | src/app/dashboard/community-issues/page.tsx:90 | the shown issues keep the list's order |
| CommunityIssuesPage.StatusText | src/app/dashboard/community-issues/page.tsx:69-80 | a label for the three known statuses; any other status is shown unchanged, and only then |
| CommunityIssuesPage.StatusColor | src/app/dashboard/community-issues/page.tsx:56-67 | "open" is "#ff6b6b", "in_progress" "#ffd93d", "resolved" "#6bcf7f", and "#fff" goes exactly to every other status |
| Scenarios.RegisterThenLogin | src/app/api/auth/register/route.ts:39-52 | a citizen who has just registered logs in with the same email and password |
| Scenarios.StoredCitizenLogsIn | src/app/api/auth/login/route.ts:21-66 | a stored citizen whose digest was made from a password logs in with that password under any spelling of its email that normalises to the stored one |
| Scenarios.AdminTokenAcceptedForADay | src/app/api/auth/admin-login/route.ts:68-114 | the admin login's cookies pass `adminMiddleware` for 24 hours and not after |
| Scenarios.SeedThenAdminLogin | src/app/api/seed-admin/route.ts:24-41 | after a seeding that created the admin, the portal accepts the published credentials |
| Scenarios.SeededCredentialsAccepted | src/app/api/seed-admin/route.ts:21-41 | from any consistent collection without the authorized email, the seeded collection admits the published credentials |
| Scenarios.SeededLastAccepted | src/app/api/auth/admin-login/route.ts:36-65 | a consistent collection ending with the seeded admin admits the published credentials with 200 |
| Scenarios.LegacyAdminRefused | scripts/seed-admin.js:21 | the script's account is refused by the admin portal with 403 whatever the password |
| Scenarios.LoginTokenAtMiddleware | src/middleware.ts:17 | a citizen's session cookie passes the middleware within its lifetime exactly when the login key equals the admin key |
| Scenarios.LoginWithOwnPassword | src/app/api/auth/login/route.ts:22-50 | logging in as a stored user with the password its digest was made from succeeds exactly when that email's account is a citizen's |
| Scenarios.ChangeThenLogin | src/app/api/auth/change-password/route.ts:7-60 | an authenticated, well-formed change with the right current password answers 200, and after it logging in with the new password succeeds exactly when the account is a citizen's |
| Scenarios.CreateThenList | src/app/api/tickets/route.ts:6-63 | a ticket just created is "open" and is listed to everyone and to its author's email |

## Left out

- Cryptography: bcrypt and JSON Web Tokens are symbolic stand-ins (no collisions, no forgery), and expiry is compared in whole seconds.
- HTTP and cookies: the `secure` flag, header parsing, cookie expiry in the browser and the middleware's `matcher` setting are not modelled; cookies are optional values.
- Request bodies: a malformed JSON body, `null` values and non-string values (which reach the same generic catch) are not modelled; absent fields are `None`.
- Text: `toLowerCase`/`toUpperCase` map ASCII letters only, and lengths count characters rather than UTF-16 code units.
- Identifiers: ids are natural numbers handed out by a counter; a malformed ObjectId (a `CastError`, caught as 500) and the ticket fields `citizenId` and `assignedTo` are not modelled.
- Ticket comments and votes are kept as data but no handler writes them; comment validation appears only in the schema predicate.
- Sorting: tickets and users created at the same instant may appear in either order; only the descending order of `createdAt` is stated.
- Timing and concurrency: the connection outcome, the `me` lookup timeout and the PUT response seen by the ticket page are parameters. Interleaved `connectDB` callers, and so a promise still pending when another call arrives, are not modelled.
- Logging and `process.exit` are not modelled beyond the script's exit code.
- Client pages: fetching, loading and error flags, date formatting and rendering are not modelled. A `location` of `null`, which makes the ticket page throw, is not modelled.
- AdminVerifyRoute.AdminVerify: its 500 "Session verification failed" branch is not modelled, because `verifyAdminToken` never throws and nothing else in the handler can.
- SeedAdminRoute.SeedAdmin: a failing `save()` is not modelled, because the seeded document always validates (proved as `SeededAdmin`'s postcondition) and the authorized email is known to be free.
- SeedAdminScript.RunTwice: states that no second copy is added, relying on the collection's unique emails, rather than counting the copies.
- TicketsRoute.Update: `status` absent from the body is dropped from the update, as Mongoose drops `undefined` keys; a `null` status is not modelled.
- UserModel.UserStore: the collection is a sequence with unique emails and ids rather than a map; the database's own unique index and its races are not modelled.
