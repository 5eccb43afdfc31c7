/** routers/adminRouter.js: the administrator guard, the JSON-or-redirect choice,
    and the review transitions on farms, contractor requests and subscription
    requests (the last one also grants the plan to the user). */
module AdminRouter {
  import opened Common
  import opened Reviews
  import opened Store
  import FarmModel
  import SR = SubscriptionRequestModel
  import Login = LoginRouter
  import Owner = OwnerRouter
  import Expiry = EnforceExpiry

  // ---------------------------------------------------------------------
  // Guards
  // ---------------------------------------------------------------------

  /** `requireAdmin`: the session role, "" when there is no session user. */
  function RequireAdmin(role: string): (r: Reply)
    ensures r == Ok <==> role == "admin"
    ensures r != Ok ==> r == Forbidden
  {
    if role == "admin" then Ok else Forbidden
  }

  /** A session opened by sign-up or log-in passes the guard exactly when the
      email is on the administrator list or the stored role is already 'admin'. */
  lemma AdminSessionPasses(env: string, email: string, role: string)
    ensures RequireAdmin(Login.SessionRole(env, email, role)) == Ok <==> Login.IsAdminEmail(env, email) || role == "admin"
  {
  }

  /** `t` is a prefix of `s`. */
  predicate StartsWith(s: string, t: string) {
    |t| <= |s| && s[..|t|] == t
  }

  /** `s.includes(t)`, scanning from the left. */
  predicate Contains(s: string, t: string)
    decreases |s|
  {
    StartsWith(s, t) || (s != [] && Contains(s[1..], t))
  }

  /** `t` occurs in `s` starting at position `i`. */
  predicate OccursAt(s: string, t: string, i: int) {
    0 <= i && i + |t| <= |s| && s[i..i + |t|] == t
  }

  /** `includes` holds exactly when `t` occurs at some position of `s`. */
  lemma {:induction false} ContainsSpec(s: string, t: string)
    ensures Contains(s, t) <==> exists i :: OccursAt(s, t, i)
    decreases |s|
  {
    if s != [] {
      ContainsSpec(s[1..], t);
      if Contains(s[1..], t) && !StartsWith(s, t) {
        var i :| OccursAt(s[1..], t, i);
        assert s[i + 1..i + 1 + |t|] == s[1..][i..i + |t|];
        assert OccursAt(s, t, i + 1);
      }
      if StartsWith(s, t) {
        assert OccursAt(s, t, 0);
      }
      if exists i :: OccursAt(s, t, i) {
        var i :| OccursAt(s, t, i);
        if i > 0 {
          assert s[1..][i - 1..i - 1 + |t|] == s[i..i + |t|];
          assert OccursAt(s[1..], t, i - 1);
        }
      }
    } else {
      if exists i :: OccursAt(s, t, i) {
        var i :| OccursAt(s, t, i);
        assert s[..|t|] == s[i..i + |t|];
        assert StartsWith(s, t);
      }
      if StartsWith(s, t) {
        assert OccursAt(s, t, 0);
      }
    }
  }

  /** `wantsJSON(req)`: the Accept header ("" when absent), the `ajax` query field and `req.xhr`. */
  predicate WantsJSON(accept: string, ajax: Field, xhr: bool) {
    Contains(accept, "application/json") || ajax == Text("1") || xhr
  }

  /** A header naming JSON anywhere in it asks for JSON; a plain form post does not. */
  lemma WantsJSONCases(before: string, after: string)
    ensures WantsJSON(before + "application/json" + after, Missing, false)
    ensures !WantsJSON("", Missing, false) && !WantsJSON("", Text("true"), false)
  {
    var s := before + "application/json" + after;
    assert s[|before|..|before| + |"application/json"|] == "application/json";
    assert OccursAt(s, "application/json", |before|);
    ContainsSpec(s, "application/json");
  }

  /** What a review handler answers: JSON 200/404, or a redirect to the dashboard
      whose message kind is `kind` when the document was found and 'danger' when not. */
  function Answer(found: bool, json: bool, kind: string): (r: Reply)
    ensures json ==> (r == Ok <==> found) && (!found ==> r == NotFound)
    ensures !json ==> r.Redirect? && (found ==> r.kind == kind) && (!found ==> r.kind == "danger")
  {
    if json then (if found then Ok else NotFound)
    else Redirect(if found then kind else "danger")
  }

  /** `(req.body && req.body.note) ? String(req.body.note) : ''`. */
  function NoteOf(note: Field): (s: string)
    ensures note.Text? ==> s == note.s
    ensures !note.Text? ==> s == ""
  {
    TextOr(note)
  }

  // ---------------------------------------------------------------------
  // Farms and contractor requests
  // ---------------------------------------------------------------------

  /** The farm update of `PATCH /admin/farms/:id/approve` as written: approved,
      stamped, note cleared, `updatedAt` set, and `rejectedAt` left as it was, so
      the TTL index removes the approved farm exactly when it would have removed
      it before (FarmModel.ApproveFarm is the approval that also clears it). */
  function ApprovedFarm(f: FarmModel.Farm, now: Time): (g: FarmModel.Farm)
    ensures g.review.status == Approved && g.review.approvedAt == Some(now) && g.review.reviewNote == ""
    ensures g.id == f.id && g.owner == f.owner && g.createdAt == f.createdAt && g.details == f.details
    ensures g.updatedAt == now
    ensures forall t :: FarmModel.TtlExpired(g, t) <==> FarmModel.TtlExpired(f, t)
  {
    f.(review := Approve(f.review, now), updatedAt := now)
  }

  /** A farm rejected at `t` and then approved by the administrator is still
      removed by the TTL index once seven days have passed since `t`. */
  lemma ApprovedListingStillExpires(f: FarmModel.Farm, t: Time, now: Time)
    requires f.review.rejectedAt == Some(t)
    ensures ApprovedFarm(f, now).review.status == Approved
    ensures FarmModel.TtlExpired(ApprovedFarm(f, now), t + FarmModel.TtlMillis + 1)
  {
  }

  /** `PATCH /admin/farms/:id/approve`; the update runs no quota check. */
  method ApproveFarmListing(db: Db, farmId: Id, now: Time, json: bool) returns (reply: Reply)
    modifies db`farms
    ensures var i := Find(old(db.farms), farmId, None);
      (i.None? ==> reply == Answer(false, json, "success") && db.farms == old(db.farms)) &&
      (i.Some? ==> (reply == Answer(true, json, "success") &&
        db.farms == old(db.farms)[i.value := ApprovedFarm(old(db.farms)[i.value], now)]))
  {
    var i := Find(db.farms, farmId, None);
    if i.None? {
      return Answer(false, json, "success");
    }
    db.farms := db.farms[i.value := ApprovedFarm(db.farms[i.value], now)];
    reply := Answer(true, json, "success");
  }

  /** `PATCH /admin/farms/:id/reject`. */
  method RejectFarmListing(db: Db, farmId: Id, note: Field, now: Time, json: bool) returns (reply: Reply)
    modifies db`farms
    ensures var i := Find(old(db.farms), farmId, None);
      (i.None? ==> reply == Answer(false, json, "warn") && db.farms == old(db.farms)) &&
      (i.Some? ==> (reply == Answer(true, json, "warn") &&
        var f := old(db.farms)[i.value];
        db.farms == old(db.farms)[i.value := f.(review := Reject(f.review, now, NoteOf(note)), updatedAt := now)]))
  {
    var i := Find(db.farms, farmId, None);
    if i.None? {
      return Answer(false, json, "warn");
    }
    var f := db.farms[i.value];
    db.farms := db.farms[i.value := f.(review := Reject(f.review, now, NoteOf(note)), updatedAt := now)];
    reply := Answer(true, json, "warn");
  }

  /** `PATCH /admin/contractors/:id/approve`. */
  method ApproveContractorRequest(db: Db, reqId: Id, now: Time, json: bool) returns (reply: Reply)
    modifies db`contractorRequests
    ensures var i := Find(old(db.contractorRequests), reqId, None);
      (i.None? ==> reply == Answer(false, json, "success") && db.contractorRequests == old(db.contractorRequests)) &&
      (i.Some? ==> (reply == Answer(true, json, "success") &&
        var r := old(db.contractorRequests)[i.value];
        db.contractorRequests == old(db.contractorRequests)[i.value := r.(review := Approve(r.review, now), updatedAt := now)]))
  {
    var i := Find(db.contractorRequests, reqId, None);
    if i.None? {
      return Answer(false, json, "success");
    }
    var r := db.contractorRequests[i.value];
    db.contractorRequests := db.contractorRequests[i.value := r.(review := Approve(r.review, now), updatedAt := now)];
    reply := Answer(true, json, "success");
  }

  /** `PATCH /admin/contractors/:id/reject`. */
  method RejectContractorRequest(db: Db, reqId: Id, note: Field, now: Time, json: bool) returns (reply: Reply)
    modifies db`contractorRequests
    ensures var i := Find(old(db.contractorRequests), reqId, None);
      (i.None? ==> reply == Answer(false, json, "warn") && db.contractorRequests == old(db.contractorRequests)) &&
      (i.Some? ==> (reply == Answer(true, json, "warn") &&
        var r := old(db.contractorRequests)[i.value];
        db.contractorRequests == old(db.contractorRequests)[i.value := r.(review := Reject(r.review, now, NoteOf(note)), updatedAt := now)]))
  {
    var i := Find(db.contractorRequests, reqId, None);
    if i.None? {
      return Answer(false, json, "warn");
    }
    var r := db.contractorRequests[i.value];
    db.contractorRequests := db.contractorRequests[i.value := r.(review := Reject(r.review, now, NoteOf(note)), updatedAt := now)];
    reply := Answer(true, json, "warn");
  }

  /** Approval consults no plan: approving a rejected document puts it back into
      the owner's pending-and-approved count (so past any cap), approving any other
      leaves that count alone, and the count of all the owner's documents never moves. */
  lemma {:induction false} ApprovalIgnoresQuota<D>(s: seq<Reviewed<D>>, i: nat, x: Reviewed<D>)
    requires i < |s| && x.owner == s[i].owner && x.review.status == Approved
    ensures Count(s[i := x], x.owner, Login.Active) == Count(s, x.owner, Login.Active) + (if s[i].review.status == Rejected then 1 else 0)
    ensures Count(s[i := x], x.owner, Owner.AllStatuses) == Count(s, x.owner, Owner.AllStatuses)
  {
    CountUpdate(s, i, x, x.owner, Login.Active);
    CountUpdate(s, i, x, x.owner, Owner.AllStatuses);
    CountsAll(x, x.owner);
    CountsAll(s[i], x.owner);
  }

  // ---------------------------------------------------------------------
  // Subscription requests
  // ---------------------------------------------------------------------

  /** `User.findByIdAndUpdate(user, {$set: {subscriptionTier: plan, plan}})`: both
      plan fields of an existing user; nothing when the user is gone. */
  function GrantPlan(users: map<Id, User>, userId: Id, plan: SR.Plan): (users': map<Id, User>)
    ensures users'.Keys == users.Keys
    ensures userId in users ==> users'[userId] == users[userId].(subscriptionTier := SR.PlanName(plan), plan := SR.PlanName(plan))
    ensures forall u :: u in users && u != userId ==> users'[u] == users[u]
  {
    if userId in users then users[userId := users[userId].(subscriptionTier := SR.PlanName(plan), plan := SR.PlanName(plan))] else users
  }

  /** Once granted, every reader of the plan sees the same plan: the landowner
      guard, the contractor guard and the contractor quota all apply its cap,
      and the quota report agrees with the contractor guard. */
  lemma GrantAlignsPlans(users: map<Id, User>, userId: Id, plan: SR.Plan,
                         reqs: seq<Reviewed<ContractorRequestModel.ContractorFields>>, f: Login.ProfileForm, newId: Id, now: Time)
    requires userId in users
    ensures var u := GrantPlan(users, userId, plan);
      Owner.OwnerPlan(u, userId) == SR.PlanName(plan) && Login.ProfilePlan(u, userId) == SR.PlanName(plan) &&
      Login.QuotaPlan(u, userId) == SR.PlanName(plan)
    ensures var u := GrantPlan(users, userId, plan);
      Login.Quota(u, reqs, userId).left == Some(0) <==> Login.PostProfile(u, reqs, userId, f, newId, now).reply == Forbidden
    ensures Owner.PlanLimit(SR.PlanName(plan)) == Login.ContractorPlanLimit(SR.PlanName(plan))
  {
    SR.PlanNameRoundTrip(plan);
    var u := GrantPlan(users, userId, plan);
    Login.QuotaAgreesWithGuard(u, reqs, userId, f, newId, now);
    Login.ContractorPlanLimitIsPlanLimit(SR.PlanName(plan));
  }

  /** The approval writes no end date, so a user who had none is never downgraded
      by the expiry, however late it runs. */
  lemma GrantedPlanNeverExpires(users: map<Id, User>, userId: Id, plan: SR.Plan, now: Time)
    requires userId in users && users[userId].subscriptionUntil.None?
    ensures Expiry.Decide(GrantPlan(users, userId, plan), userId, now) == Expiry.Unchanged
  {
  }

  /** `PATCH /admin/subscriptions/:id/approve`. `userWriteFails` stands for a failed
      user update, which is logged and still answered with ok. */
  method ApproveSubscriptionRequest(db: Db, reqId: Id, now: Time, userWriteFails: bool) returns (reply: Reply)
    modifies db`subscriptionRequests, db`users
    ensures var i := Find(old(db.subscriptionRequests), reqId, None);
      (i.None? ==> reply == NotFound && unchanged(db)) &&
      (i.Some? ==> (reply == Ok &&
        var r := old(db.subscriptionRequests)[i.value];
        db.subscriptionRequests == old(db.subscriptionRequests)[i.value := r.(review := Approve(r.review, now), updatedAt := now)] &&
        db.users == if userWriteFails then old(db.users) else GrantPlan(old(db.users), r.owner, r.details.plan)))
  {
    var i := Find(db.subscriptionRequests, reqId, None);
    if i.None? {
      return NotFound;
    }
    var r := db.subscriptionRequests[i.value];
    db.subscriptionRequests := db.subscriptionRequests[i.value := r.(review := Approve(r.review, now), updatedAt := now)];
    if !userWriteFails {
      db.users := GrantPlan(db.users, r.owner, r.details.plan);
    }
    reply := Ok;
  }

  /** `PATCH /admin/subscriptions/:id/reject`; the note is the given text or "". */
  method RejectSubscriptionRequest(db: Db, reqId: Id, note: Field, now: Time) returns (reply: Reply)
    modifies db`subscriptionRequests
    ensures var i := Find(old(db.subscriptionRequests), reqId, None);
      (i.None? ==> reply == NotFound && db.subscriptionRequests == old(db.subscriptionRequests)) &&
      (i.Some? ==> (reply == Ok &&
        var r := old(db.subscriptionRequests)[i.value];
        db.subscriptionRequests == old(db.subscriptionRequests)[i.value := r.(review := Reject(r.review, now, NoteOf(note)), updatedAt := now)]))
  {
    var i := Find(db.subscriptionRequests, reqId, None);
    if i.None? {
      return NotFound;
    }
    var r := db.subscriptionRequests[i.value];
    db.subscriptionRequests := db.subscriptionRequests[i.value := r.(review := Reject(r.review, now, NoteOf(note)), updatedAt := now)];
    reply := Ok;
  }
}
