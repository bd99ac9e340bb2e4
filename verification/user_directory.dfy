/** The identity directory the handlers call through `admin.auth()`: an
    account store with lookup by email, replacement of an account's custom
    claims, and listing of a first page of accounts. Its real behaviour lives
    in firebase-admin; this module states the behaviour the model assumes.
 */
module UserDirectory {
  import opened JsValues

  type Uid = string

  /** A user record as the directory hands it out. The metadata timestamps
      are opaque values that are only copied through. */
  datatype Account = Account(
    uid: Uid,
    email: Option<string>,
    displayName: Option<string>,
    photoURL: Option<string>,
    customClaims: Option<Object>,
    creationTime: JsValue,
    lastSignInTime: JsValue)

  /** How directory calls fail. `outage` makes every call reject with its
      message (network or service failure); `writeRefusal` makes a claims
      write to an existing account reject with its message while lookups and
      listings still succeed; `notFound` and `invalidEmail` are the messages
      the directory uses for an unknown account and for an argument that is
      not a non-empty email string. */
  datatype Faults = Faults(
    outage: Option<string>,
    writeRefusal: Option<string>,
    notFound: string,
    invalidEmail: string)

  /** The directory's state: accounts by uid, the order in which listing
      returns them, and the email index that lookup by email consults. */
  datatype Store = Store(
    accounts: map<Uid, Account>,
    order: seq<Uid>,
    byEmail: map<string, Uid>,
    faults: Faults)

  /** Every account is stored under its own uid; the listing order names every
      account exactly once; the email index maps each stored email to the
      account that carries it, and nothing else, so no two accounts share an
      email. */
  ghost predicate Wf(d: Store) {
    && (forall u :: u in d.accounts ==> d.accounts[u].uid == u)
    && (forall i :: 0 <= i < |d.order| ==> d.order[i] in d.accounts)
    && (forall u :: u in d.accounts ==> u in d.order)
    && (forall i, j :: 0 <= i < j < |d.order| ==> d.order[i] != d.order[j])
    && (forall e :: e in d.byEmail ==>
          d.byEmail[e] in d.accounts && d.accounts[d.byEmail[e]].email == Some(e))
    && (forall u :: u in d.accounts && d.accounts[u].email.Some? ==>
          d.accounts[u].email.value in d.byEmail && d.byEmail[d.accounts[u].email.value] == u)
  }

  type Directory = d: Store | Wf(d)
    witness Store(map[], [], map[], Faults(None, None, "", ""))

  /** The settled value of an awaited directory call: resolved with a value,
      or rejected with an error whose `message` the handlers forward. */
  datatype Settled<+T> = Resolved(value: T) | Rejected(message: string)

  /** One call the handlers make on the directory, recorded so that "the
      directory was never queried" can be stated. */
  datatype DirCall =
    | LookupCall(email: JsValue)
    | ClaimsCall(uid: Uid, claims: Object)
    | ListCall(maxResults: nat)

  /** Some stored account carries email `e`. */
  ghost predicate HasAccountWithEmail(d: Directory, e: string) {
    exists u :: u in d.accounts && d.accounts[u].email == Some(e)
  }

  /** True when `d'` is `d` with the custom claims of account `uid` replaced
      by `claims`, and nothing else changed. */
  ghost predicate ClaimsReplaced(d: Store, d': Store, uid: Uid, claims: Object) {
    && uid in d.accounts
    && d'.accounts.Keys == d.accounts.Keys
    && d'.accounts[uid] == d.accounts[uid].(customClaims := Some(claims))
    && (forall u :: u in d.accounts && u != uid ==> d'.accounts[u] == d.accounts[u])
    && d'.order == d.order
    && d'.byEmail == d.byEmail
    && d'.faults == d.faults
  }

  /** `getUserByEmail(email)`: the uid of the account carrying `email`. An
      argument that is not a non-empty string is refused before any request;
      then an outage; then an email no account carries. */
  function GetUserByEmail(d: Directory, email: JsValue): (r: Settled<Uid>)
    ensures r.Resolved? <==>
              email.Str? && email.s != "" && d.faults.outage.None? && HasAccountWithEmail(d, email.s)
    ensures r.Resolved? ==>
              && r.value in d.accounts && d.accounts[r.value].email == Some(email.s)
              && forall u :: u in d.accounts && d.accounts[u].email == Some(email.s) ==> u == r.value
    ensures !(email.Str? && email.s != "") ==> r == Rejected(d.faults.invalidEmail)
    ensures r.Rejected? && email.Str? && email.s != "" ==>
              r.message == (if d.faults.outage.Some? then d.faults.outage.value else d.faults.notFound)
  {
    if !(email.Str? && email.s != "") then Rejected(d.faults.invalidEmail)
    else if d.faults.outage.Some? then Rejected(d.faults.outage.value)
    else if email.s in d.byEmail then Resolved(d.byEmail[email.s])
    else
      assert !HasAccountWithEmail(d, email.s);
      Rejected(d.faults.notFound)
  }

  /** `setCustomUserClaims(uid, claims)`: the account's claims object is
      replaced wholesale (no merge with the claims it had). An outage is
      reported first, then an unknown uid, then a refused write. */
  function SetCustomUserClaims(d: Directory, uid: Uid, claims: Object): (r: Settled<Directory>)
    ensures r.Resolved? <==> d.faults.outage.None? && uid in d.accounts && d.faults.writeRefusal.None?
    ensures r.Resolved? ==> ClaimsReplaced(d, r.value, uid, claims)
    ensures r.Rejected? ==>
              r.message == (if d.faults.outage.Some? then d.faults.outage.value
                            else if uid !in d.accounts then d.faults.notFound
                            else d.faults.writeRefusal.value)
  {
    if d.faults.outage.Some? then Rejected(d.faults.outage.value)
    else if uid !in d.accounts then Rejected(d.faults.notFound)
    else if d.faults.writeRefusal.Some? then Rejected(d.faults.writeRefusal.value)
    else
      var a := d.accounts[uid];
      var s := d.(accounts := d.accounts[uid := a.(customClaims := Some(claims))]);
      assert Wf(s) by {
        forall u | u in s.accounts && s.accounts[u].email.Some?
          ensures s.accounts[u].email.value in s.byEmail && s.byEmail[s.accounts[u].email.value] == u
        {
          assert s.accounts[u].email == d.accounts[u].email;
        }
      }
      Resolved(s)
  }

  /** Every account in listing order. */
  function Listing(d: Directory): (r: seq<Account>)
    ensures |r| == |d.order| == |d.accounts|
    ensures forall i :: 0 <= i < |r| ==> r[i] == d.accounts[d.order[i]]
  {
    ListingHasEveryAccount(d);
    seq(|d.order|, i requires 0 <= i < |d.order| => d.accounts[d.order[i]])
  }

  /** The listing order is a duplicate-free enumeration of the accounts, so it
      is exactly as long as there are accounts. */
  lemma ListingHasEveryAccount(d: Directory)
    ensures |d.order| == |d.accounts|
  {
    var keys := set i | 0 <= i < |d.order| :: d.order[i];
    assert keys == d.accounts.Keys;
    DistinctSeqCard(d.order);
  }

  /** A sequence without repetitions has as many distinct elements as it is long. */
  lemma {:induction false} DistinctSeqCard(s: seq<Uid>)
    requires forall i, j :: 0 <= i < j < |s| ==> s[i] != s[j]
    ensures |set i | 0 <= i < |s| :: s[i]| == |s|
  {
    if |s| > 0 {
      var last := |s| - 1;
      var init := s[..last];
      DistinctSeqCard(init);
      var all := set i | 0 <= i < |s| :: s[i];
      var front := set i | 0 <= i < |init| :: init[i];
      assert all == front + {s[last]} by {
        forall x | x in all ensures x in front + {s[last]} {
          var i :| 0 <= i < |s| && s[i] == x;
          if i < last {
            assert init[i] == x;
          }
        }
        forall x | x in front ensures x in all {
          var i :| 0 <= i < |init| && init[i] == x;
          assert s[i] == x;
        }
      }
      assert s[last] !in front;
    }
  }

  /** `listUsers(maxResults)`: the first `maxResults` accounts in listing
      order (only the first page; the continuation token is not modelled). */
  function ListUsers(d: Directory, maxResults: nat): (r: Settled<seq<Account>>)
    ensures r.Resolved? <==> d.faults.outage.None?
    ensures r.Rejected? ==> r.message == d.faults.outage.value
    ensures r.Resolved? ==>
              && |r.value| <= maxResults
              && |r.value| == (if |d.order| < maxResults then |d.order| else maxResults)
              && forall i :: 0 <= i < |r.value| ==> r.value[i] == d.accounts[d.order[i]]
  {
    if d.faults.outage.Some? then Rejected(d.faults.outage.value)
    else
      var all := Listing(d);
      Resolved(if |all| < maxResults then all else all[..maxResults])
  }
}
