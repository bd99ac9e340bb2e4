/** Properties that relate several handler calls, or several handlers, to
    each other: the shared admin gate, the bootstrap rule's indifference to
    claims, idempotence of every write, last-write-wins between grant and
    revoke, what a later listing shows, and concrete example requests.
 */
module AdminProperties {
  import opened JsValues
  import opened UserDirectory
  import opened AdminFunctions

  /** No handler reads or writes the directory for an unauthenticated call. */
  lemma UnauthenticatedTouchesNothing(data: Object, d: Directory)
    ensures var ctx := CallContext(None);
            && FailsWith(SetAdminRole(data, ctx, d), Unauthenticated) && Untouched(SetAdminRole(data, ctx, d), d)
            && FailsWith(RemoveAdminRole(data, ctx, d), Unauthenticated) && Untouched(RemoveAdminRole(data, ctx, d), d)
            && FailsWith(GetAllUsers(ctx, d), Unauthenticated) && Untouched(GetAllUsers(ctx, d), d)
            && FailsWith(InitializeFirstAdmin(ctx, d), Unauthenticated) && Untouched(InitializeFirstAdmin(ctx, d), d)
  {
  }

  /** The three admin-only handlers refuse exactly the same callers, and a
      refused caller leaves the directory unread and unchanged. */
  lemma OneAdminGate(data: Object, data': Object, auth: Auth, d: Directory, d': Directory)
    ensures var ctx := CallContext(Some(auth));
            && (FailsWith(SetAdminRole(data, ctx, d), PermissionDenied) <==> !IsCallerAdmin(auth))
            && (FailsWith(RemoveAdminRole(data', ctx, d'), PermissionDenied) <==> !IsCallerAdmin(auth))
            && (FailsWith(GetAllUsers(ctx, d), PermissionDenied) <==> !IsCallerAdmin(auth))
            && (!IsCallerAdmin(auth) ==>
                  && Untouched(SetAdminRole(data, ctx, d), d)
                  && Untouched(RemoveAdminRole(data', ctx, d'), d')
                  && Untouched(GetAllUsers(ctx, d), d))
  {
  }

  /** An `admin: true` claim alone never lets a caller bootstrap: a caller
      whose token email is off the allow-list is refused whatever the token
      says, though the same caller passes the other handlers' gate. */
  lemma BootstrapIgnoresClaims(auth: Auth, d: Directory)
    requires IsTrue(Get(auth.token, "admin"))
    requires !(Get(auth.token, "email").Str? && Get(auth.token, "email").s in ADMIN_EMAILS)
    ensures IsCallerAdmin(auth)
    ensures FailsWith(InitializeFirstAdmin(CallContext(Some(auth)), d), PermissionDenied)
    ensures Untouched(InitializeFirstAdmin(CallContext(Some(auth)), d), d)
  {
  }

  /** The bootstrap outcome depends on the token only through its email:
      two callers with the same uid and email get the same outcome whatever
      other claims their tokens carry. */
  lemma BootstrapSeesOnlyEmail(a1: Auth, a2: Auth, d: Directory)
    requires a1.uid == a2.uid
    requires Get(a1.token, "email") == Get(a2.token, "email")
    ensures InitializeFirstAdmin(CallContext(Some(a1)), d) == InitializeFirstAdmin(CallContext(Some(a2)), d)
  {
  }

  /** `setAdminRole` twice with the same request is `setAdminRole` once:
      same directory, same response. */
  lemma SetAdminRoleIdempotent(data: Object, ctx: CallContext, d: Directory)
    ensures var o1 := SetAdminRole(data, ctx, d);
            var o2 := SetAdminRole(data, ctx, o1.dir);
            o2.dir == o1.dir && o2.response == o1.response
  {
  }

  /** `removeAdminRole` twice with the same request is `removeAdminRole` once. */
  lemma RemoveAdminRoleIdempotent(data: Object, ctx: CallContext, d: Directory)
    ensures var o1 := RemoveAdminRole(data, ctx, d);
            var o2 := RemoveAdminRole(data, ctx, o1.dir);
            o2.dir == o1.dir && o2.response == o1.response
  {
  }

  /** `initializeFirstAdmin` twice by the same caller is once. */
  lemma InitializeFirstAdminIdempotent(ctx: CallContext, d: Directory)
    ensures var o1 := InitializeFirstAdmin(ctx, d);
            var o2 := InitializeFirstAdmin(ctx, o1.dir);
            o2.dir == o1.dir && o2.response == o1.response
  {
  }

  /** A successful write by email replaces the claims of the account the
      email index names. */
  lemma WriteByEmailReplaces(d: Directory, target: JsValue, flag: bool, suffix: string)
    requires WriteAdminByEmail(d, target, flag, suffix).response.Ok?
    ensures target.Str? && target.s in d.byEmail
    ensures ClaimsReplaced(d, WriteAdminByEmail(d, target, flag, suffix).dir, d.byEmail[target.s], AdminClaims(flag))
  {
  }

  /** Replacing one account's claims twice is replacing them once with the
      second value. */
  lemma OverwriteClaims(d: Store, d1: Store, d2: Store, d3: Store,
                        uid: Uid, c1: Object, c2: Object)
    requires ClaimsReplaced(d, d1, uid, c1)
    requires ClaimsReplaced(d1, d2, uid, c2)
    requires ClaimsReplaced(d, d3, uid, c2)
    ensures d2 == d3
  {
    forall v | v in d2.accounts ensures d2.accounts[v] == d3.accounts[v] {
      if v == uid {
        assert d2.accounts[v] == d.accounts[uid].(customClaims := Some(c2));
      }
    }
    assert d2.accounts == d3.accounts;
  }

  /** A second write by the same email overrides the first. */
  lemma LastWriteWins(d: Directory, target: JsValue, f1: bool, s1: string, f2: bool, s2: string)
    requires WriteAdminByEmail(d, target, f1, s1).response.Ok?
    ensures WriteAdminByEmail(WriteAdminByEmail(d, target, f1, s1).dir, target, f2, s2).dir ==
            WriteAdminByEmail(d, target, f2, s2).dir
  {
    WriteByEmailReplaces(d, target, f1, s1);
    var u := d.byEmail[target.s];
    var d1 := WriteAdminByEmail(d, target, f1, s1).dir;
    assert HasAccountWithEmail(d1, target.s) by {
      assert d1.accounts[u].email == Some(target.s);
    }
    WriteByEmailReplaces(d1, target, f2, s2);
    WriteByEmailReplaces(d, target, f2, s2);
    OverwriteClaims(d, d1, WriteAdminByEmail(d1, target, f2, s2).dir, WriteAdminByEmail(d, target, f2, s2).dir,
                    u, AdminClaims(f1), AdminClaims(f2));
  }

  /** Claims are replaced, not merged: granting and then revoking leaves the
      directory exactly as revoking alone would. */
  lemma RevokeOverridesGrant(data: Object, ctx: CallContext, d: Directory)
    requires SetAdminRole(data, ctx, d).response.Ok?
    ensures RemoveAdminRole(data, ctx, SetAdminRole(data, ctx, d).dir).dir == RemoveAdminRole(data, ctx, d).dir
  {
    var e := Get(data, "email");
    assert SetAdminRole(data, ctx, d) == WriteAdminByEmail(d, e, true, " is now an admin!");
    LastWriteWins(d, e, true, " is now an admin!", false, " is no longer an admin.");
  }

  /** After a grant, a listing that reaches the target account reports it
      as an admin. */
  lemma GrantShowsInListing(data: Object, ctx: CallContext, lister: Auth, d: Directory, i: nat)
    requires IsCallerAdmin(lister)
    requires SetAdminRole(data, ctx, d).response.Ok?
    requires Get(data, "email").Str? && Get(data, "email").s in d.byEmail
    requires i < PAGE_SIZE && i < |d.order| && d.order[i] == d.byEmail[Get(data, "email").s]
    ensures var o := GetAllUsers(CallContext(Some(lister)), SetAdminRole(data, ctx, d).dir);
            o.response.Ok? && o.response.reply.users[i].isAdmin == Bool(true)
  {
  }

  /** After a revoke, a listing that reaches the target account reports
      `isAdmin: false`, even for an allow-listed email. */
  lemma RevokeShowsInListing(data: Object, ctx: CallContext, lister: Auth, d: Directory, i: nat)
    requires IsCallerAdmin(lister)
    requires RemoveAdminRole(data, ctx, d).response.Ok?
    requires Get(data, "email").Str? && Get(data, "email").s in d.byEmail
    requires i < PAGE_SIZE && i < |d.order| && d.order[i] == d.byEmail[Get(data, "email").s]
    ensures var o := GetAllUsers(CallContext(Some(lister)), RemoveAdminRole(data, ctx, d).dir);
            o.response.Ok? && o.response.reply.users[i].isAdmin == Bool(false)
  {
  }

  /** A successful bootstrap by an allow-listed caller, for any email. */
  lemma BootstrapByListed(auth: Auth, d: Directory)
    requires MayBootstrap(auth) && d.faults.outage.None? && d.faults.writeRefusal.None? && auth.uid in d.accounts
    ensures var o := InitializeFirstAdmin(CallContext(Some(auth)), d);
            && o.response == Ok(Message(Get(auth.token, "email").s + " is now the first admin!"))
            && o.dir.accounts[auth.uid].customClaims == Some(AdminClaims(true))
  {
  }

  /** A successful grant by an admin, for any existing non-empty email. */
  lemma GrantByAdmin(data: Object, auth: Auth, d: Directory, e: string)
    requires IsCallerAdmin(auth) && Get(data, "email") == Str(e) && e != ""
    requires e in d.byEmail && d.faults.outage.None? && d.faults.writeRefusal.None?
    ensures var o := SetAdminRole(data, CallContext(Some(auth)), d);
            && o.response == Ok(Message(e + " is now an admin!"))
            && o.dir.accounts[d.byEmail[e]].customClaims == Some(AdminClaims(true))
  {
  }

  /** Bootstrap scenario: the allow-listed owner, not yet an admin, becomes
      one and is told so by email. */
  lemma BootstrapScenario(d: Directory, uid: Uid)
    requires d.faults.outage.None? && d.faults.writeRefusal.None? && uid in d.accounts
    ensures var o := InitializeFirstAdmin(CallContext(Some(Auth(uid, map["email" := Str("makara605799@gmail.com")]))), d);
            && o.response == Ok(Message("makara605799@gmail.com is now the first admin!"))
            && o.dir.accounts[uid].customClaims == Some(map["admin" := Bool(true)])
  {
    var auth := Auth(uid, map["email" := Str("makara605799@gmail.com")]);
    assert MayBootstrap(auth);
    BootstrapByListed(auth, d);
    BootstrapMessageText();
  }

  /** Grant scenario: an allow-listed admin grants `new@x.com`, whose account
      exists; its claims become exactly `{admin: true}`. */
  lemma GrantScenario(d: Directory, caller: Uid)
    requires d.faults.outage.None? && d.faults.writeRefusal.None? && "new@x.com" in d.byEmail
    ensures var o := SetAdminRole(map["email" := Str("new@x.com")],
                                  CallContext(Some(Auth(caller, map["email" := Str("makara605799@gmail.com")]))), d);
            && o.response == Ok(Message("new@x.com is now an admin!"))
            && o.dir.accounts[d.byEmail["new@x.com"]].customClaims == Some(map["admin" := Bool(true)])
  {
    var auth := Auth(caller, map["email" := Str("makara605799@gmail.com")]);
    assert IsCallerAdmin(auth);
    GrantByAdmin(map["email" := Str("new@x.com")], auth, d, "new@x.com");
    GrantMessageText();
  }

  /** The reply texts of the two scenarios, spelled out. Kept apart from the
      scenarios so that the concatenation of literals is proved on its own. */
  lemma BootstrapMessageText()
    ensures "makara605799@gmail.com" + " is now the first admin!" == "makara605799@gmail.com is now the first admin!"
  {
  }

  lemma GrantMessageText()
    ensures "new@x.com" + " is now an admin!" == "new@x.com is now an admin!"
  {
  }

  /** Display-name scenario: an account without a display name and with
      email `bob@x.com` is listed as "bob". */
  lemma BobDisplayName(a: Account)
    requires a.displayName.None? && a.email == Some("bob@x.com")
    ensures ToUserRecord(a).displayName == "bob"
  {
  }

  /** An email that starts with `@` gives an empty display name, not
      "No Name": the fallback to "No Name" tests the email, not the prefix. */
  lemma LeadingAtGivesEmptyName(a: Account, rest: string)
    requires a.displayName.None? && a.email == Some("@" + rest)
    ensures ToUserRecord(a).displayName == ""
  {
  }

  /** A missing email is refused by `setAdminRole` without a lookup, but
      reaches the lookup in `removeAdminRole`, which rejects it there. */
  lemma MissingEmailAsymmetry(data: Object, auth: Auth, d: Directory)
    requires IsCallerAdmin(auth)
    requires "email" !in data
    ensures SetAdminRole(data, CallContext(Some(auth)), d) ==
            Outcome(Err(HttpsError(InvalidArgument, EMAIL_REQUIRED)), d, [])
    ensures RemoveAdminRole(data, CallContext(Some(auth)), d) ==
            Outcome(Err(HttpsError(Internal, d.faults.invalidEmail)), d, [LookupCall(Undefined)])
  {
  }
}
