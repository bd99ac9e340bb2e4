/** The four callable handlers of index.js as pure functions from the call
    context, the request data and the directory to an `Outcome`: the response
    (a reply or an HttpsError), the directory afterwards, and the directory
    calls made, in order.
 */
module AdminFunctions {
  import opened JsValues
  import opened UserDirectory

  /** The fixed allow-list: these emails count as admin without any claim. */
  const ADMIN_EMAILS: seq<string> := ["makara605799@gmail.com"]

  /** `listUsers` is asked for one page of this many accounts. */
  const PAGE_SIZE: nat := 100

  const LOGIN_REQUIRED := "User must be logged in."
  const EMAIL_REQUIRED := "Email is required."
  const NO_NAME := "No Name"

  /** The `permission-denied` messages, one per handler. */
  const SET_DENIED := "Only admins can set admin roles."
  const REMOVE_DENIED := "Only admins can remove admin roles."
  const LIST_DENIED := "Only admins can view all users."
  const BOOTSTRAP_DENIED := "You are not authorized to be an admin."

  /** `context.auth`: the caller's uid and decoded ID token (its claims,
      `email` and `admin` among them). */
  datatype Auth = Auth(uid: Uid, token: Object)

  /** `context`: `auth` is absent for an unauthenticated call. */
  datatype CallContext = CallContext(auth: Option<Auth>)

  /** The HttpsError codes the handlers throw. */
  datatype Code = Unauthenticated | PermissionDenied | InvalidArgument | Internal

  datatype HttpsError = HttpsError(code: Code, message: string)

  /** One element of the `users` array `getAllUsers` returns. `isAdmin` is a
      JavaScript value because `customClaims && …` yields `undefined` when
      the account has no custom claims. */
  datatype UserRecord = UserRecord(
    uid: Uid,
    email: Option<string>,
    displayName: string,
    photoURL: Option<string>,
    isAdmin: JsValue,
    createdAt: JsValue,
    lastSignIn: JsValue)

  /** The payload of `{success: true, …}`. */
  datatype Reply = Message(text: string) | Users(users: seq<UserRecord>)

  datatype Response = Ok(reply: Reply) | Err(error: HttpsError)

  datatype Outcome = Outcome(response: Response, dir: Directory, calls: seq<DirCall>)

  /** The claims object every write installs, replacing what was there. */
  function AdminClaims(flag: bool): Object {
    map["admin" := Bool(flag)]
  }

  /** The response is an HttpsError with code `c`. */
  predicate FailsWith(o: Outcome, c: Code) {
    o.response.Err? && o.response.error.code == c
  }

  /** A rejected call that neither wrote nor consulted the directory. */
  ghost predicate Untouched(o: Outcome, d: Directory) {
    o.dir == d && o.calls == []
  }

  /** The admin test shared by `setAdminRole`, `removeAdminRole` and
      `getAllUsers`: the token's `admin` claim is exactly `true`, or the
      token's email is on the allow-list. */
  function IsCallerAdmin(auth: Auth): (r: bool)
    ensures r <==> Get(auth.token, "admin") == Bool(true) ||
                   (Get(auth.token, "email").Str? && Get(auth.token, "email").s in ADMIN_EMAILS)
  {
    IsTrue(Get(auth.token, "admin")) || Includes(ADMIN_EMAILS, Get(auth.token, "email"))
  }

  /** The narrower test of `initializeFirstAdmin`: the allow-list alone. Every
      caller it admits also passes the general admin test. */
  function MayBootstrap(auth: Auth): (r: bool)
    ensures r <==> Get(auth.token, "email").Str? && Get(auth.token, "email").s in ADMIN_EMAILS
    ensures r ==> IsCallerAdmin(auth)
  {
    Includes(ADMIN_EMAILS, Get(auth.token, "email"))
  }

  /** The rejection every handler opens with. */
  function RejectUnauthenticated(d: Directory): (o: Outcome)
    ensures FailsWith(o, Unauthenticated) && Untouched(o, d)
  {
    Outcome(Err(HttpsError(Unauthenticated, LOGIN_REQUIRED)), d, [])
  }

  /** The body shared by `setAdminRole` and `removeAdminRole` once the checks
      have passed: look the target up by email, replace its claims with
      `{admin: flag}`, and report `<email><suffix>`; any rejection becomes an
      `internal` error carrying the directory's message, with no write. The
      message is the lookup's (invalid email, outage, no such account) or,
      once the lookup has found the account, the write's refusal. */
  function WriteAdminByEmail(d: Directory, target: JsValue, flag: bool, suffix: string): (o: Outcome)
    ensures |o.calls| >= 1 && o.calls[0] == LookupCall(target)
    ensures o.response.Ok? <==>
              && target.Str? && target.s != "" && d.faults.outage.None? && HasAccountWithEmail(d, target.s)
              && d.faults.writeRefusal.None?
    ensures o.response.Ok? ==>
              && target.Str?
              && o.response.reply == Message(target.s + suffix)
              && exists u :: u in d.accounts && d.accounts[u].email == Some(target.s)
                             && ClaimsReplaced(d, o.dir, u, AdminClaims(flag))
                             && o.calls == [LookupCall(target), ClaimsCall(u, AdminClaims(flag))]
    ensures o.response.Err? ==>
              && o.response.error.code == Internal
              && o.dir == d
              && o.response.error.message ==
                   (if !(target.Str? && target.s != "") then d.faults.invalidEmail
                    else if d.faults.outage.Some? then d.faults.outage.value
                    else if !HasAccountWithEmail(d, target.s) then d.faults.notFound
                    else d.faults.writeRefusal.value)
    ensures GetUserByEmail(d, target).Rejected? ==>
              o == Outcome(Err(HttpsError(Internal, GetUserByEmail(d, target).message)), d, [LookupCall(target)])
    ensures o.response.Err? && target.Str? && target.s != "" && d.faults.outage.None? &&
            HasAccountWithEmail(d, target.s) ==>
              && target.s in d.byEmail
              && o.calls == [LookupCall(target), ClaimsCall(d.byEmail[target.s], AdminClaims(flag))]
    ensures !(target.Str? && target.s != "") ==>
              o == Outcome(Err(HttpsError(Internal, d.faults.invalidEmail)), d, [LookupCall(target)])
  {
    match GetUserByEmail(d, target)
    case Rejected(m) => Outcome(Err(HttpsError(Internal, m)), d, [LookupCall(target)])
    case Resolved(u) =>
      var calls := [LookupCall(target), ClaimsCall(u, AdminClaims(flag))];
      match SetCustomUserClaims(d, u, AdminClaims(flag))
      case Rejected(m) => Outcome(Err(HttpsError(Internal, m)), d, calls)
      case Resolved(d') => Outcome(Ok(Message(target.s + suffix)), d', calls)
  }

  /** `setAdminRole(data, context)`: an admin makes the account with email
      `data.email` an admin. */
  function SetAdminRole(data: Object, ctx: CallContext, d: Directory): (o: Outcome)
    ensures FailsWith(o, Unauthenticated) <==> ctx.auth.None?
    ensures FailsWith(o, PermissionDenied) <==> ctx.auth.Some? && !IsCallerAdmin(ctx.auth.value)
    ensures FailsWith(o, InvalidArgument) <==>
              ctx.auth.Some? && IsCallerAdmin(ctx.auth.value) && !Truthy(Get(data, "email"))
    ensures (FailsWith(o, Unauthenticated) || FailsWith(o, PermissionDenied) ||
             FailsWith(o, InvalidArgument)) ==> Untouched(o, d)
    ensures FailsWith(o, Unauthenticated) ==> o.response.error.message == LOGIN_REQUIRED
    ensures FailsWith(o, PermissionDenied) ==> o.response.error.message == SET_DENIED
    ensures FailsWith(o, InvalidArgument) ==> o.response.error.message == EMAIL_REQUIRED
    ensures ctx.auth.Some? && IsCallerAdmin(ctx.auth.value) && Truthy(Get(data, "email")) ==>
              |o.calls| >= 1 && o.calls[0] == LookupCall(Get(data, "email"))
    ensures o.response.Ok? <==>
              && ctx.auth.Some? && IsCallerAdmin(ctx.auth.value)
              && Get(data, "email").Str? && Get(data, "email").s != ""
              && d.faults.outage.None? && HasAccountWithEmail(d, Get(data, "email").s)
              && d.faults.writeRefusal.None?
    ensures o.response.Ok? ==>
              var email := Get(data, "email").s;
              && o.response.reply == Message(email + " is now an admin!")
              && exists u :: u in d.accounts && d.accounts[u].email == Some(email)
                             && ClaimsReplaced(d, o.dir, u, AdminClaims(true))
    ensures FailsWith(o, Internal) ==>
              var e := Get(data, "email");
              && o.dir == d
              && o.response.error.message ==
                   (if !(e.Str? && e.s != "") then d.faults.invalidEmail
                    else if d.faults.outage.Some? then d.faults.outage.value
                    else if !HasAccountWithEmail(d, e.s) then d.faults.notFound
                    else d.faults.writeRefusal.value)
    ensures |o.calls| <= 2
  {
    if ctx.auth.None? then RejectUnauthenticated(d)
    else if !IsCallerAdmin(ctx.auth.value) then
      Outcome(Err(HttpsError(PermissionDenied, SET_DENIED)), d, [])
    else
      var targetEmail := Get(data, "email");
      if !Truthy(targetEmail) then Outcome(Err(HttpsError(InvalidArgument, EMAIL_REQUIRED)), d, [])
      else WriteAdminByEmail(d, targetEmail, true, " is now an admin!")
  }

  /** `removeAdminRole(data, context)`: an admin clears the admin flag of the
      account with email `data.email`. Unlike `setAdminRole` there is no
      check of `data.email`: a missing email goes to the lookup, which
      rejects it. */
  function RemoveAdminRole(data: Object, ctx: CallContext, d: Directory): (o: Outcome)
    ensures FailsWith(o, Unauthenticated) <==> ctx.auth.None?
    ensures FailsWith(o, PermissionDenied) <==> ctx.auth.Some? && !IsCallerAdmin(ctx.auth.value)
    ensures FailsWith(o, Unauthenticated) || FailsWith(o, PermissionDenied) ==> Untouched(o, d)
    ensures FailsWith(o, Unauthenticated) ==> o.response.error.message == LOGIN_REQUIRED
    ensures FailsWith(o, PermissionDenied) ==> o.response.error.message == REMOVE_DENIED
    ensures !FailsWith(o, InvalidArgument)
    ensures ctx.auth.Some? && IsCallerAdmin(ctx.auth.value) ==>
              |o.calls| >= 1 && o.calls[0] == LookupCall(Get(data, "email"))
    ensures o.response.Ok? <==>
              && ctx.auth.Some? && IsCallerAdmin(ctx.auth.value)
              && Get(data, "email").Str? && Get(data, "email").s != ""
              && d.faults.outage.None? && HasAccountWithEmail(d, Get(data, "email").s)
              && d.faults.writeRefusal.None?
    ensures o.response.Ok? ==>
              var email := Get(data, "email").s;
              && o.response.reply == Message(email + " is no longer an admin.")
              && exists u :: u in d.accounts && d.accounts[u].email == Some(email)
                             && ClaimsReplaced(d, o.dir, u, AdminClaims(false))
    ensures FailsWith(o, Internal) ==>
              var e := Get(data, "email");
              && o.dir == d
              && o.response.error.message ==
                   (if !(e.Str? && e.s != "") then d.faults.invalidEmail
                    else if d.faults.outage.Some? then d.faults.outage.value
                    else if !HasAccountWithEmail(d, e.s) then d.faults.notFound
                    else d.faults.writeRefusal.value)
    ensures |o.calls| <= 2
  {
    if ctx.auth.None? then RejectUnauthenticated(d)
    else if !IsCallerAdmin(ctx.auth.value) then
      Outcome(Err(HttpsError(PermissionDenied, REMOVE_DENIED)), d, [])
    else WriteAdminByEmail(d, Get(data, "email"), false, " is no longer an admin.")
  }

  /** The display name `getAllUsers` reports: the account's own display name
      if it is non-empty, otherwise the part of its email before the first
      `@` if it has a non-empty email, otherwise "No Name". */
  function DisplayName(a: Account): (r: string)
    ensures a.displayName.Some? && a.displayName.value != "" ==> r == a.displayName.value
    ensures !(a.displayName.Some? && a.displayName.value != "") && a.email.Some? && a.email.value != "" ==>
              && r <= a.email.value
              && '@' !in r
              && (|r| < |a.email.value| ==> a.email.value[|r|] == '@')
    ensures !(a.displayName.Some? && a.displayName.value != "") && !(a.email.Some? && a.email.value != "") ==>
              r == NO_NAME
  {
    if a.displayName.Some? && a.displayName.value != "" then a.displayName.value
    else if a.email.Some? && a.email.value != "" then BeforeFirst(a.email.value, '@')
    else NO_NAME
  }

  /** `user.customClaims && user.customClaims.admin === true`. */
  function IsAdminFlag(a: Account): (v: JsValue)
    ensures Truthy(v) <==> a.customClaims.Some? && IsTrue(Get(a.customClaims.value, "admin"))
    ensures a.customClaims.None? ==> v == Undefined
    ensures a.customClaims.Some? ==> v.Bool?
  {
    match a.customClaims
    case None => Undefined
    case Some(c) => Bool(IsTrue(Get(c, "admin")))
  }

  /** The per-user projection of `getAllUsers`. */
  function ToUserRecord(a: Account): (r: UserRecord)
    ensures r.uid == a.uid && r.email == a.email && r.photoURL == a.photoURL
    ensures r.createdAt == a.creationTime && r.lastSignIn == a.lastSignInTime
    ensures r.displayName == DisplayName(a)
    ensures Truthy(r.isAdmin) <==> a.customClaims.Some? && IsTrue(Get(a.customClaims.value, "admin"))
  {
    UserRecord(a.uid, a.email, DisplayName(a), a.photoURL, IsAdminFlag(a), a.creationTime, a.lastSignInTime)
  }

  /** `getAllUsers(data, context)`: an admin receives the projected first page
      of accounts, in listing order. It never writes. */
  function GetAllUsers(ctx: CallContext, d: Directory): (o: Outcome)
    ensures FailsWith(o, Unauthenticated) <==> ctx.auth.None?
    ensures FailsWith(o, PermissionDenied) <==> ctx.auth.Some? && !IsCallerAdmin(ctx.auth.value)
    ensures FailsWith(o, Unauthenticated) || FailsWith(o, PermissionDenied) ==> Untouched(o, d)
    ensures FailsWith(o, Unauthenticated) ==> o.response.error.message == LOGIN_REQUIRED
    ensures FailsWith(o, PermissionDenied) ==> o.response.error.message == LIST_DENIED
    ensures o.dir == d
    ensures o.response.Ok? <==> ctx.auth.Some? && IsCallerAdmin(ctx.auth.value) && d.faults.outage.None?
    ensures o.response.Ok? ==>
              && o.response.reply.Users?
              && |o.response.reply.users| <= PAGE_SIZE
              && |o.response.reply.users| == (if |d.order| < PAGE_SIZE then |d.order| else PAGE_SIZE)
              && (forall i :: 0 <= i < |o.response.reply.users| ==>
                    o.response.reply.users[i] == ToUserRecord(d.accounts[d.order[i]]))
    ensures !FailsWith(o, InvalidArgument)
    ensures ctx.auth.Some? && IsCallerAdmin(ctx.auth.value) && d.faults.outage.Some? ==>
              o.response == Err(HttpsError(Internal, d.faults.outage.value))
    ensures FailsWith(o, Internal) ==> o.response.error.message == d.faults.outage.value
    ensures ctx.auth.Some? && IsCallerAdmin(ctx.auth.value) ==> o.calls == [ListCall(PAGE_SIZE)]
  {
    if ctx.auth.None? then RejectUnauthenticated(d)
    else if !IsCallerAdmin(ctx.auth.value) then
      Outcome(Err(HttpsError(PermissionDenied, LIST_DENIED)), d, [])
    else
      match ListUsers(d, PAGE_SIZE)
      case Rejected(m) => Outcome(Err(HttpsError(Internal, m)), d, [ListCall(PAGE_SIZE)])
      case Resolved(accounts) =>
        var users := seq(|accounts|, i requires 0 <= i < |accounts| => ToUserRecord(accounts[i]));
        Outcome(Ok(Users(users)), d, [ListCall(PAGE_SIZE)])
  }

  /** `initializeFirstAdmin(data, context)`: a caller whose email is on the
      allow-list makes their own account (by uid, without a lookup) an admin.
      An `admin` claim in the token does not qualify. */
  function InitializeFirstAdmin(ctx: CallContext, d: Directory): (o: Outcome)
    ensures FailsWith(o, Unauthenticated) <==> ctx.auth.None?
    ensures FailsWith(o, PermissionDenied) <==>
              ctx.auth.Some? && !(Get(ctx.auth.value.token, "email").Str? &&
                                  Get(ctx.auth.value.token, "email").s in ADMIN_EMAILS)
    ensures FailsWith(o, Unauthenticated) || FailsWith(o, PermissionDenied) ==> Untouched(o, d)
    ensures FailsWith(o, Unauthenticated) ==> o.response.error.message == LOGIN_REQUIRED
    ensures FailsWith(o, PermissionDenied) ==> o.response.error.message == BOOTSTRAP_DENIED
    ensures !FailsWith(o, InvalidArgument)
    ensures o.response.Ok? <==>
              && ctx.auth.Some? && MayBootstrap(ctx.auth.value)
              && d.faults.outage.None? && ctx.auth.value.uid in d.accounts
              && d.faults.writeRefusal.None?
    ensures o.response.Ok? ==>
              && ClaimsReplaced(d, o.dir, ctx.auth.value.uid, AdminClaims(true))
              && o.calls == [ClaimsCall(ctx.auth.value.uid, AdminClaims(true))]
              && o.response.reply == Message(Get(ctx.auth.value.token, "email").s + " is now the first admin!")
    ensures FailsWith(o, Internal) ==>
              && ctx.auth.Some?
              && o.dir == d
              && o.calls == [ClaimsCall(ctx.auth.value.uid, AdminClaims(true))]
              && o.response.error.message ==
                   (if d.faults.outage.Some? then d.faults.outage.value
                    else if ctx.auth.value.uid !in d.accounts then d.faults.notFound
                    else d.faults.writeRefusal.value)
  {
    if ctx.auth.None? then RejectUnauthenticated(d)
    else
      var callerEmail := Get(ctx.auth.value.token, "email");
      if !Includes(ADMIN_EMAILS, callerEmail) then
        Outcome(Err(HttpsError(PermissionDenied, BOOTSTRAP_DENIED)), d, [])
      else
        var uid := ctx.auth.value.uid;
        var calls := [ClaimsCall(uid, AdminClaims(true))];
        match SetCustomUserClaims(d, uid, AdminClaims(true))
        case Rejected(m) => Outcome(Err(HttpsError(Internal, m)), d, calls)
        case Resolved(d') => Outcome(Ok(Message(callerEmail.s + " is now the first admin!")), d', calls)
  }
}
