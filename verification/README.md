# Admin role management callables, modelled in Dafny

The repository's backend is four Firebase callable functions in `index.js`
that manage an `admin` custom claim on accounts of the Firebase
Authentication user directory:

- `setAdminRole` — an admin gives the account with `data.email` the claims `{admin: true}`;
- `removeAdminRole` — an admin gives that account the claims `{admin: false}`;
- `getAllUsers` — an admin receives a projection of the first 100 accounts;
- `initializeFirstAdmin` — a caller whose email is on the fixed allow-list
  `ADMIN_EMAILS` gives their own account `{admin: true}`.

A caller is an admin when the `admin` claim of their ID token is exactly
`true` or the token's `email` is on `ADMIN_EMAILS`. Every handler refuses an
unauthenticated call first and a non-admin second (the bootstrap handler
checks the allow-list alone). Only `setAdminRole` then refuses a falsy
`data.email`. Any rejection from the directory becomes an `internal` error
that carries the directory's message.

The model turns each handler into a pure function
`(data, context, directory) -> Outcome`. An `Outcome` holds three things:

- the response, either `{success: true, …}` or an `HttpsError` with code and message;
- the directory after the call;
- the sequence of directory calls made.

Because the call sequence is part of the result, "the directory was neither
read nor written" is a statement about that result.

Two definitions are the vocabulary every contract is written in, and have no
contract of their own. `JsValues.Get` is a property read `o.key`, which gives
`undefined` when the key is absent. `AdminFunctions.AdminClaims(flag)` is the
claims object `{admin: flag}` that every write installs.

Files:

- `js_values.dfy` (module `JsValues`): the JavaScript value semantics the handlers use. This covers truthiness, `=== true`, property access, `Array.prototype.includes` and `split("@")[0]`.
- `user_directory.dfy` (module `UserDirectory`): the directory as an abstract store. It holds accounts by uid, a listing order and an email index, with `getUserByEmail`, `setCustomUserClaims` and `listUsers`. A `Directory` is a `Store` whose invariant holds: each account is stored under its own uid, the order lists every account once, and the email index is exact, so no two accounts share an email.
- `admin_functions.dfy` (module `AdminFunctions`): `ADMIN_EMAILS`, the admin predicate, the four handlers and the per-user projection of `getAllUsers`.
- `admin_properties.dfy` (module `AdminProperties`): lemmas that relate calls to each other. They cover the shared gate, bootstrap ignoring claims, idempotence, last write wins, what a later listing shows, and concrete example requests.

The behaviour of the directory is an assumption of the model, not a verified
fact. The model assumes:

- lookup by email finds the account carrying that email, and emails are unique across accounts;
- a claims write replaces the account's whole claims object;
- listing returns accounts in a fixed order.

Lookups and writes fail only with the directory's own messages. These are
modelled as opaque strings: an outage message for any call, a not-found
message, an invalid-email message for an argument that is not a non-empty
string, and a write-refusal message with which a claims write to an existing
account can fail even though the lookup before it succeeded.

Behaviour of the code worth noting:

- `setAdminRole` and `removeAdminRole` make two directory calls, a lookup and then a write.
- `isAdmin` in the `getAllUsers` projection is `undefined` when the account has no custom claims, because `customClaims && …` yields the falsy left operand. It is a boolean only when claims exist.
- The display-name fallback tests whether the email is non-empty, not whether the prefix is non-empty. An email that starts with `@` therefore gives the display name `""`, not `"No Name"`.
- `removeAdminRole` has no check of `data.email`. A missing email still fails, but as `internal` (the lookup rejects it), not as `invalid-argument`.

## Model

| member | source | states |
|---|---|---|
| JsValues.Truthy | index.js:37 | a value is truthy exactly when it is none of `undefined`, `null`, `false`, `0` and `""` |
| JsValues.IsTrue | index.js:30 | `v === true` holds for the boolean `true` and for nothing else |
| JsValues.Includes | index.js:30 | `ADMIN_EMAILS.includes(v)` holds exactly when `v` is a string that is one of the listed emails; `undefined` or any non-string never matches |
| JsValues.BeforeFirst | index.js:95 | `email.split("@")[0]` is a prefix of the email, contains no `@`, and stops at the first `@` (or at the end) |
| JsValues.BeforeFirstUnique | index.js:95 | those three properties determine the first split piece uniquely, so they are a complete specification of it |
| JsValues.BeforeFirstRejoins | index.js:95 | when the email contains `@`, the email is the first piece, then `@`, then the rest: nothing is lost before the first `@` |
| UserDirectory.GetUserByEmail | index.js:42 | lookup resolves exactly when the argument is a non-empty string, there is no outage and some account carries that email; the uid it returns is the only account carrying it; otherwise it rejects with the invalid-email message, else the outage message, else the not-found message |
| UserDirectory.SetCustomUserClaims | index.js:43 | the write succeeds exactly when there is no outage, the uid exists and the write is not refused; on success only that account's claims change, to exactly the given object, and the directory invariant still holds; on failure the message is the outage's, else not-found, else the refusal's |
| UserDirectory.Listing | index.js:91-92 | the listing has one entry per account, the account stored under the uid at that position of the listing order |
| UserDirectory.ListUsers | index.js:91 | `listUsers(n)` returns the first `min(n, #accounts)` accounts in listing order, or rejects with the outage message |
| AdminFunctions.IsCallerAdmin | index.js:29-30 | a caller is admin exactly when the token's `admin` claim is the boolean `true` or the token's `email` is a string on `ADMIN_EMAILS` |
| AdminFunctions.MayBootstrap | index.js:116-119 | the bootstrap test holds exactly when the token's `email` is a string on `ADMIN_EMAILS`; every caller it admits is also an admin |
| AdminFunctions.RejectUnauthenticated | index.js:24-26 | a call with no `context.auth` fails with `unauthenticated`, with no directory call and no change |
| AdminFunctions.WriteAdminByEmail | index.js:41-47 | looks the email up first; succeeds exactly when the lookup can succeed and the write is not refused; on success replaces the claims of the found account by `{admin: flag}` and reports `<email><suffix>`; any rejection is an `internal` error with no write, whose message is the invalid-email message for a non-string or empty target, else the outage message, else not-found when no account carries the email, else the write's refusal; a rejected lookup is the only call, a refused write comes after the lookup |
| AdminFunctions.SetAdminRole | index.js:22-48 | `unauthenticated`, `permission-denied` and `invalid-argument` each hold exactly under their own condition, in that order of precedence, with messages `User must be logged in.`, `Only admins can set admin roles.` and `Email is required.`, and none of them reads or writes the directory; an admin caller's request with a truthy email starts with the lookup of that email; success exactly when the caller is admin, the email names an existing account and the write is not refused, with that account's claims becoming `{admin:true}` and message `<email> is now an admin!`; `internal` never writes and carries the invalid-email, outage, not-found or write-refusal message, in that order of precedence; at most two directory calls |
| AdminFunctions.RemoveAdminRole | index.js:53-73 | same gate as `setAdminRole`, refusing a non-admin with `Only admins can remove admin roles.`; never `invalid-argument`; an admin caller's request always starts with the lookup of `data.email`, even a missing one; success exactly when the caller is admin, the email names an existing account and the write is not refused; on success the target's claims become `{admin:false}` and the message is `<email> is no longer an admin.`; `internal` never writes and carries the invalid-email, outage, not-found or write-refusal message, in that order of precedence |
| AdminFunctions.DisplayName | index.js:95 | the account's display name if non-empty; otherwise, for a non-empty email, its part before the first `@`; otherwise `"No Name"` |
| AdminFunctions.IsAdminFlag | index.js:97 | truthy exactly when custom claims exist and their `admin` is `=== true`; `undefined` when there are no claims; a boolean otherwise |
| AdminFunctions.ToUserRecord | index.js:92-100 | the projected record copies uid, email, photo URL and both timestamps, uses the display-name fallback, and has a truthy `isAdmin` exactly for a strict `admin: true` claim |
| AdminFunctions.GetAllUsers | index.js:78-105 | same gate as the writers, refusing a non-admin with `Only admins can view all users.`; never changes the directory; never `invalid-argument`; an admin caller's request makes exactly the one call `listUsers(100)`; a failed listing is `internal` carrying the outage message; succeeds exactly for an admin caller when there is no outage; returns at most 100 records, `min(100, #accounts)` of them, record `i` being the projection of the `i`-th listed account |
| AdminFunctions.InitializeFirstAdmin | index.js:111-129 | `permission-denied` (`You are not authorized to be an admin.`) exactly when the token email is not a listed string, whatever the token's `admin` claim; success exactly for an allow-listed caller when there is no outage, their uid exists and the write is not refused; on success the caller's own uid (no lookup, one call) gets `{admin:true}` and the message is `<email> is now the first admin!`; `internal` has made exactly that one claims write to the caller's uid and no lookup, leaves the directory unchanged, and carries the outage, not-found or write-refusal message, in that order of precedence |
| AdminProperties.UnauthenticatedTouchesNothing | index.js:24-26 | all four handlers fail with `unauthenticated` for a call without `auth`, with no directory call and no change |
| AdminProperties.OneAdminGate | index.js:29-34 | `setAdminRole`, `removeAdminRole` and `getAllUsers` refuse exactly the same callers, those failing the admin predicate, without touching the directory |
| AdminProperties.BootstrapIgnoresClaims | index.js:116-121 | a caller with `admin: true` in the token but an unlisted email passes the general admin gate yet is refused by `initializeFirstAdmin`, with no directory call |
| AdminProperties.BootstrapSeesOnlyEmail | index.js:116-125 | two callers with the same uid and token email get identical bootstrap outcomes, whatever other claims their tokens carry |
| AdminProperties.SetAdminRoleIdempotent | index.js:41-44 | repeating a `setAdminRole` request on the resulting directory gives the same directory and the same response |
| AdminProperties.RemoveAdminRoleIdempotent | index.js:66-69 | repeating a `removeAdminRole` request gives the same directory and the same response |
| AdminProperties.InitializeFirstAdminIdempotent | index.js:123-125 | repeating `initializeFirstAdmin` gives the same directory and the same response |
| AdminProperties.LastWriteWins | index.js:43 | two successive writes by the same email leave the directory as the second write alone would, because claims are replaced and not merged |
| AdminProperties.RevokeOverridesGrant | index.js:68 | granting and then revoking the same email leaves the directory exactly as revoking alone |
| AdminProperties.GrantShowsInListing | index.js:97 | after a successful grant, a later listing that reaches the target reports `isAdmin: true` for it |
| AdminProperties.RevokeShowsInListing | index.js:97 | after a successful revoke, a later listing that reaches the target reports `isAdmin: false`, even if the email is allow-listed |
| AdminProperties.BootstrapByListed | index.js:116-125 | an allow-listed caller whose account exists, with no outage and no refused write, is told `<their email> is now the first admin!` and their own claims become `{admin: true}` |
| AdminProperties.GrantByAdmin | index.js:36-44 | an admin granting a non-empty email that an account carries, with no outage and no refused write, is told `<email> is now an admin!` and that account's claims become `{admin: true}` |
| AdminProperties.BootstrapScenario | index.js:123-125 | the allow-listed owner bootstrapping gets `makara605799@gmail.com is now the first admin!` and their claims become `{admin: true}` |
| AdminProperties.GrantScenario | index.js:41-44 | an allow-listed admin granting an existing `new@x.com` gets `new@x.com is now an admin!` and that account's claims become `{admin: true}` |
| AdminProperties.BobDisplayName | index.js:95 | an account with no display name and email `bob@x.com` is listed as `bob` |
| AdminProperties.LeadingAtGivesEmptyName | index.js:95 | an email starting with `@` and no display name gives the empty display name, not `"No Name"` |
| AdminProperties.MissingEmailAsymmetry | index.js:36-39 | with no `data.email`, `setAdminRole` fails with `invalid-argument` before any lookup, while `removeAdminRole` looks up `undefined` and fails with `internal` carrying the invalid-email message |

## Left out

- Firebase initialisation and transport (`admin.initializeApp()`, `functions.https.onCall`): platform plumbing. An `HttpsError` is modelled as a code and a message.
- A `data` argument that is `null` or `undefined`: `data.email` then throws a `TypeError` outside the `try`. The platform's reply to that error is not visible, so `data` is always an object here.
- async/await: each handler is sequential. Its at most two awaited directory calls are ordinary function calls.
- The real firebase-admin semantics are assumed, not verified. That covers email-format validation beyond "non-empty string", uid validation, claim-size limits, case handling of emails, token refresh and the propagation of new claims into later tokens. The modelled directory is a map with replace-on-write claims and the failure messages described above.
- Partial failures such as a timeout after the server applied a write are not modelled. A rejected write leaves the directory unchanged.
- Pagination: `nextPageToken` is never used by the code, so only the first page is modelled.
- Metadata timestamps are opaque values copied through. JavaScript numbers are integers here, so NaN is not represented; the handlers never produce numbers.

