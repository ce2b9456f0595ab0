/** Who may see which salary records: the role and user-id defaults every
    handler applies, the owner-or-admin rule, and the listing filter. */
module AccessPolicy {
  import opened SalaryTypes

  /** `req.userRole || "user"`: a missing or empty role counts as "user". */
  function EffectiveRole(c: Caller): (role: string)
    ensures role != ""
    ensures c.userRole.None? || c.userRole.value == "" ==> role == "user"
    ensures c.userRole.Some? && c.userRole.value != "" ==> role == c.userRole.value
  {
    if c.userRole.Some? && c.userRole.value != "" then c.userRole.value else "user"
  }

  /** `req.userId || "anonymous"`: a missing or empty id counts as "anonymous". */
  function EffectiveUserId(c: Caller): (uid: string)
    ensures uid != ""
    ensures c.userId.None? || c.userId.value == "" ==> uid == "anonymous"
    ensures c.userId.Some? && c.userId.value != "" ==> uid == c.userId.value
  {
    if c.userId.Some? && c.userId.value != "" then c.userId.value else "anonymous"
  }

  /** `role === "admin"`: only a request that names the admin role; the
      default never does. */
  function IsAdmin(c: Caller): (b: bool)
    ensures b <==> c.userRole == Some("admin")
  {
    EffectiveRole(c) == "admin"
  }

  /** Read permission on a record owned by `owner`, and on its documents:
      admins, the owner, and for a request without a user id the owner
      "anonymous". */
  function CanAccess(c: Caller, owner: string): (b: bool)
    ensures b <==> (|| c.userRole == Some("admin")
                    || (c.userId.Some? && c.userId.value != "" && owner == c.userId.value)
                    || ((c.userId.None? || c.userId.value == "") && owner == "anonymous"))
  {
    IsAdmin(c) || owner == EffectiveUserId(c)
  }

  /** A caller without a role and without an id reaches only records owned by "anonymous". */
  lemma AnonymousAccess(owner: string)
    ensures CanAccess(Caller(None, None), owner) <==> owner == "anonymous"
  {
  }

  /** `all.filter((s) => s.userId === uid)` */
  function OwnedBy(all: seq<SalaryRecord>, uid: string): (r: seq<SalaryRecord>)
    ensures |r| <= |all|
    ensures forall x :: x in r <==> x in all && x.userId == uid
  {
    if all == [] then []
    else if all[0].userId == uid then [all[0]] + OwnedBy(all[1..], uid)
    else OwnedBy(all[1..], uid)
  }

  /** The filter keeps store order: filtering a concatenation concatenates the filtered parts. */
  lemma {:induction false} OwnedByAppend(a: seq<SalaryRecord>, b: seq<SalaryRecord>, uid: string)
    ensures OwnedBy(a + b, uid) == OwnedBy(a, uid) + OwnedBy(b, uid)
  {
    if a == [] {
      assert a + b == b;
    } else {
      assert (a + b)[1..] == a[1..] + b;
      OwnedByAppend(a[1..], b, uid);
    }
  }

  /** The records `GET /salaries` returns out of `all`. */
  function Visible(c: Caller, all: seq<SalaryRecord>): (r: seq<SalaryRecord>)
    ensures IsAdmin(c) ==> r == all
    ensures forall x :: x in r <==> x in all && CanAccess(c, x.userId)
  {
    if EffectiveRole(c) == "admin" then all else OwnedBy(all, EffectiveUserId(c))
  }

  /** Listing keeps store order for every caller. */
  lemma VisibleAppend(c: Caller, a: seq<SalaryRecord>, b: seq<SalaryRecord>)
    ensures Visible(c, a + b) == Visible(c, a) + Visible(c, b)
  {
    if !IsAdmin(c) {
      OwnedByAppend(a, b, EffectiveUserId(c));
    }
  }
}
