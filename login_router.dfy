/** routers/loginrouter.js: the administrator e-mail list and session role,
    the contractor side (profile submission under a quota, the quota report,
    editing and deleting requests), subscription requests from owners and
    contractors with their approve/reject handlers, and the unguarded
    listing-create handler that also answers `POST /owner/lands`. */
module LoginRouter {
  import opened Common
  import opened Reviews
  import opened Store
  import opened ContractorRequestModel
  import SR = SubscriptionRequestModel
  import Owner = OwnerRouter
  import FarmModel

  // ---------------------------------------------------------------------
  // isAdminEmail and the session role
  // ---------------------------------------------------------------------

  /** `parts.map(s => s.trim().toLowerCase()).filter(Boolean)`. */
  function Entries(parts: seq<string>): seq<string> {
    if parts == [] then []
    else
      var t := ToLower(Trim(parts[0]));
      var rest := Entries(parts[1..]);
      if t == [] then rest else [t] + rest
  }

  /** Some part, trimmed and lower-cased, is `x`. */
  predicate Listed(parts: seq<string>, x: string) {
    exists i :: 0 <= i < |parts| && ToLower(Trim(parts[i])) == x
  }

  /** An entry is the trimmed, lower-cased form of some part, and never empty. */
  lemma {:induction false} EntriesSpec(parts: seq<string>, x: string)
    ensures x in Entries(parts) <==> x != [] && Listed(parts, x)
  {
    if parts != [] {
      EntriesSpec(parts[1..], x);
      if x != [] && ToLower(Trim(parts[0])) != x && Listed(parts, x) {
        var i :| 0 <= i < |parts| && ToLower(Trim(parts[i])) == x;
        assert parts[i] == parts[1..][i - 1];
      }
      if x in Entries(parts[1..]) {
        var i :| 0 <= i < |parts[1..]| && ToLower(Trim(parts[1..][i])) == x;
        assert parts[i + 1] == parts[1..][i];
      }
    }
  }

  /** `isAdminEmail(email)` against the comma-separated `ADMIN_EMAILS` value
      `env`; an absent email is "". The email is lower-cased but not trimmed. */
  predicate IsAdminEmail(env: string, email: string) {
    ToLower(email) in Entries(Split(env, ','))
  }

  /** An email is an administrator's exactly when it is not empty and its
      lower-case form is some list entry trimmed and lower-cased. */
  lemma IsAdminEmailSpec(env: string, email: string)
    ensures IsAdminEmail(env, email) <==> email != [] && Listed(Split(env, ','), ToLower(email))
  {
    EntriesSpec(Split(env, ','), ToLower(email));
    assert ToLower(email) != [] <==> email != [];
  }

  /** No list makes the empty email an administrator. */
  lemma EmptyEmailNeverAdmin(env: string)
    ensures !IsAdminEmail(env, "")
  {
    IsAdminEmailSpec(env, "");
  }

  /** Entries are trimmed, so an email that starts with white space never matches one. */
  lemma {:induction false} PaddedEmailNeverAdmin(env: string, email: string)
    requires email != [] && IsSpace(email[0])
    ensures !IsAdminEmail(env, email)
  {
    IsAdminEmailSpec(env, email);
  }

  /** `isAdminEmail(email) ? 'admin' : user.role` (sign-up and log-in). */
  function SessionRole(env: string, email: string, role: string): (r: string)
    ensures r == "admin" <==> IsAdminEmail(env, email) || role == "admin"
    ensures !IsAdminEmail(env, email) ==> r == role
  {
    if IsAdminEmail(env, email) then "admin" else role
  }

  // ---------------------------------------------------------------------
  // Plans
  // ---------------------------------------------------------------------

  /** `normalizePlan(p)`: the trimmed input when it names a paid plan, Basic otherwise. */
  function NormalizePlan(p: string): (r: string)
    ensures r in {"VIP", "Premium", "Basic"}
    ensures r == "VIP" <==> Trim(p) == "VIP"
    ensures r == "Premium" <==> Trim(p) == "Premium"
  {
    var x := Trim(p);
    if x == "VIP" then "VIP" else if x == "Premium" then "Premium" else "Basic"
  }

  /** Normalising twice is normalising once, and white space around the input does not matter. */
  lemma NormalizePlanIdempotent(p: string)
    ensures NormalizePlan(NormalizePlan(p)) == NormalizePlan(p)
    ensures NormalizePlan(Trim(p)) == NormalizePlan(p)
  {
    TrimIdempotent(p);
    var r := NormalizePlan(p);
    assert r[0] != ' ' && r[0] != '\t' && r[0] != '\n' && r[0] != '\r';
    assert r[|r| - 1] != ' ' && r[|r| - 1] != '\t' && r[|r| - 1] != '\n' && r[|r| - 1] != '\r';
    TrimStartKeeps(r);
    TrimEndKeeps(r);
  }

  /** `contractorPlanLimit(plan)`. */
  function ContractorPlanLimit(plan: string): Cap {
    if plan == "VIP" then Unlimited
    else if plan == "Premium" then Finite(2)
    else Finite(1)
  }

  /** The contractor caps are the landowner caps. */
  lemma ContractorPlanLimitIsPlanLimit(plan: string)
    ensures ContractorPlanLimit(plan) == Owner.PlanLimit(plan)
    ensures ContractorPlanLimit(plan).Unlimited? <==> plan == "VIP"
  {
  }

  /** `user?.plan || 'Basic'`: the profile guard reads the contractor-side plan field. */
  function ProfilePlan(users: map<Id, User>, userId: Id): string {
    if userId in users && users[userId].plan != "" then users[userId].plan else "Basic"
  }

  /** The statuses the contractor guard and quota count: rejected requests use no quota. */
  const Active: set<Status> := {Pending, Approved}

  // ---------------------------------------------------------------------
  // Services
  // ---------------------------------------------------------------------

  /** The `services` value of a form: a list, kept as it is, or anything else,
      read as a comma-separated string. */
  datatype ServicesInput = ServiceList(items: seq<string>) | ServiceText(text: Field)

  /** `Array.isArray(s) ? s : String(s||'').split(',').map(s=>s.trim()).filter(Boolean)`. */
  function ParseServices(s: ServicesInput): seq<string> {
    match s
    case ServiceList(items) => items
    case ServiceText(f) => TrimmedNonEmpty(Split(TextOr(f), ','))
  }

  /** From a string, the services are the parts between commas, each trimmed,
      with the blank ones dropped, in their order and with their repetitions:
      every service is trimmed and not empty, every part that is not blank is
      kept, and nothing else is. */
  lemma ServicesSpec(text: string)
    ensures ParseServices(ServiceText(Text(text))) == NonBlank(Trims(Split(text, ',')))
    ensures forall q :: q in ParseServices(ServiceText(Text(text))) ==> q != [] && Trim(q) == q
    ensures forall i :: 0 <= i < |Split(text, ',')| && Trim(Split(text, ',')[i]) != [] ==>
      Trim(Split(text, ',')[i]) in ParseServices(ServiceText(Text(text)))
    ensures forall q :: q in ParseServices(ServiceText(Text(text))) ==> q in Trims(Split(text, ','))
  {
    TrimmedNonEmptyIsTrimThenFilter(Split(text, ','));
    TrimmedNonEmptyAreTrimmed(Split(text, ','));
    TrimmedNonEmptyKeeps(Split(text, ','));
    TrimmedNonEmptyFromParts(Split(text, ','));
  }

  // ---------------------------------------------------------------------
  // POST /contractor/profile
  // ---------------------------------------------------------------------

  /** A profile form; absent text fields are "". */
  datatype ProfileForm = ProfileForm(
    name: string, email: string, phone: string, region: string, bio: string,
    companyName: string, services: ServicesInput, city: string, description: string,
    avatar: string, photos: seq<string>, videoUrl: string)

  datatype ProfileOutcome = ProfileOutcome(reply: Reply, created: Option<ContractorRequest>)

  function Submitted(f: ProfileForm): NewRequest {
    NewRequest(f.name, f.email, f.phone, f.region, f.bio, f.companyName, ParseServices(f.services),
      f.city, f.description, Trim(f.videoUrl), f.avatar, f.photos)
  }

  /** The answer to a profile form and the request it adds. */
  function PostProfile(users: map<Id, User>, reqs: seq<ContractorRequest>, userId: Id, f: ProfileForm, newId: Id, now: Time): ProfileOutcome {
    if ContractorPlanLimit(ProfilePlan(users, userId)).Reached(Count(reqs, userId, Active)) then ProfileOutcome(Forbidden, None)
    else
      match Create(newId, userId, now, Submitted(f))
      case None => ProfileOutcome(ServerError, None)
      case Some(r) => ProfileOutcome(Ok, Some(r))
  }

  /** 403 once the user's pending and approved requests reach the cap of their
      `plan` field, 500 when the company name is empty (the schema requires it),
      otherwise a new pending request carrying the parsed services. */
  lemma PostProfileDecides(users: map<Id, User>, reqs: seq<ContractorRequest>, userId: Id, f: ProfileForm, newId: Id, now: Time, o: ProfileOutcome)
    requires o == PostProfile(users, reqs, userId, f, newId, now)
    ensures o.reply in {Ok, Forbidden, ServerError}
    ensures o.created.Some? <==> o.reply == Ok
    ensures o.reply == Forbidden <==> ContractorPlanLimit(ProfilePlan(users, userId)).Reached(Count(reqs, userId, Active))
    ensures o.reply == ServerError <==> o.reply != Forbidden && f.companyName == ""
    ensures o.created.Some? ==>
      var r := o.created.value;
      r.id == newId && r.owner == userId && r.review == Initial && r.createdAt == now &&
      r.details.companyName == f.companyName && r.details.services == ParseServices(f.services) &&
      r.details.videoUrl == Trim(f.videoUrl) && r.details.subscriptionTier == Basic
  {
    if o.created.Some? {
      TrimIdempotent(f.videoUrl);
    }
  }

  /** `POST /contractor/profile`. The new document's id is a parameter. */
  method PostContractorProfile(db: Db, userId: Id, f: ProfileForm, newId: Id, now: Time) returns (reply: Reply)
    modifies db`contractorRequests
    ensures var o := PostProfile(db.users, old(db.contractorRequests), userId, f, newId, now);
      reply == o.reply && db.contractorRequests == old(db.contractorRequests) + (if o.created.Some? then [o.created.value] else [])
  {
    var plan := ProfilePlan(db.users, userId);
    var limit := ContractorPlanLimit(plan);
    var used := Count(db.contractorRequests, userId, Active);
    if limit.Reached(used) {
      assert db.contractorRequests + [] == db.contractorRequests;
      return Forbidden;
    }
    var doc := Create(newId, userId, now, Submitted(f));
    if doc.None? {
      assert db.contractorRequests + [] == db.contractorRequests;
      return ServerError;
    }
    db.contractorRequests := db.contractorRequests + [doc.value];
    reply := Ok;
  }

  /** The guard keeps a contractor within the cap: with no more pending and
      approved requests than the cap before, there are no more after. */
  lemma {:induction false} PostProfileWithinCap(users: map<Id, User>, reqs: seq<ContractorRequest>, userId: Id, f: ProfileForm, newId: Id, now: Time)
    requires ContractorPlanLimit(ProfilePlan(users, userId)).Finite?
    requires Count(reqs, userId, Active) <= ContractorPlanLimit(ProfilePlan(users, userId)).n
    ensures var o := PostProfile(users, reqs, userId, f, newId, now);
      Count(reqs + (if o.created.Some? then [o.created.value] else []), userId, Active) <= ContractorPlanLimit(ProfilePlan(users, userId)).n
  {
    var o := PostProfile(users, reqs, userId, f, newId, now);
    PostProfileDecides(users, reqs, userId, f, newId, now, o);
    if o.created.Some? {
      CountAppend(reqs, o.created.value, userId, Active);
    } else {
      assert reqs + [] == reqs;
    }
  }

  /** Unlike the landowner guard, rejected requests use no quota: adding one
      never changes the answer to the next profile form. */
  lemma {:induction false} ProfileGuardIgnoresRejected(users: map<Id, User>, reqs: seq<ContractorRequest>, x: ContractorRequest, userId: Id, f: ProfileForm, newId: Id, now: Time)
    requires x.review.status == Rejected
    ensures PostProfile(users, reqs + [x], userId, f, newId, now).reply == PostProfile(users, reqs, userId, f, newId, now).reply
  {
    CountAppend(reqs, x, userId, Active);
  }

  // ---------------------------------------------------------------------
  // GET /contractor/quota
  // ---------------------------------------------------------------------

  /** `(u && (u.subscriptionTier || u.plan)) || 'Basic'`: the quota reads the tier first. */
  function QuotaPlan(users: map<Id, User>, userId: Id): string {
    if userId in users && users[userId].subscriptionTier != "" then users[userId].subscriptionTier
    else if userId in users && users[userId].plan != "" then users[userId].plan
    else "Basic"
  }

  /** `LIMITS[plan] ?? 1` with `LIMITS = { Basic: 1, Premium: 2, VIP: Infinity }`. */
  function LimitsLookup(plan: string): Cap {
    if plan == "Basic" then Finite(1)
    else if plan == "Premium" then Finite(2)
    else if plan == "VIP" then Unlimited
    else Finite(1)
  }

  /** The lookup table is `contractorPlanLimit` again. */
  lemma LimitsLookupIsContractorPlanLimit(plan: string)
    ensures LimitsLookup(plan) == ContractorPlanLimit(plan)
  {
  }

  /** `{ plan, limit, used, left, unlimited }`; `limit` and `left` are null when unlimited. */
  datatype ContractorQuota = ContractorQuota(plan: string, limit: Option<nat>, used: nat, left: Option<nat>, unlimited: bool)

  function Quota(users: map<Id, User>, reqs: seq<ContractorRequest>, userId: Id): (q: ContractorQuota)
    ensures q.plan == QuotaPlan(users, userId) && q.used == Count(reqs, userId, Active)
    ensures q.unlimited <==> q.limit.None?
    ensures q.unlimited <==> q.left.None?
    ensures q.limit.Some? ==> q.left.value + q.used >= q.limit.value && (q.left.value == 0 || q.left.value + q.used == q.limit.value)
  {
    var plan := QuotaPlan(users, userId);
    var limitRaw := LimitsLookup(plan);
    var used := Count(reqs, userId, Active);
    var unlimited := limitRaw.Unlimited?;
    ContractorQuota(plan, if unlimited then None else Some(limitRaw.n), used,
      if unlimited then None else Some(Max0(limitRaw.n - used)), unlimited)
  }

  /** When the two plan fields the handlers read agree, the quota report agrees
      with the profile guard: nothing left exactly when a form would be refused. */
  lemma QuotaAgreesWithGuard(users: map<Id, User>, reqs: seq<ContractorRequest>, userId: Id, f: ProfileForm, newId: Id, now: Time)
    requires QuotaPlan(users, userId) == ProfilePlan(users, userId)
    ensures Quota(users, reqs, userId).left == Some(0) <==> PostProfile(users, reqs, userId, f, newId, now).reply == Forbidden
  {
  }

  /** When only `subscriptionTier` is set, the two disagree: a VIP by tier is
      reported unlimited while the guard, reading `plan`, applies the Basic cap. */
  lemma QuotaAndGuardCanDisagree(f: ProfileForm)
    ensures var users := map[7 := User("c@x.io", "contractor", "VIP", "", None)];
      var r := Reviewed(1, 7, 0, 0, Initial, ContractorFields("", "", "", "", "", "Co", [], "", "", "", "", [], Basic));
      Quota(users, [r], 7).unlimited && PostProfile(users, [r], 7, f, 2, 0).reply == Forbidden
  {
    var r := Reviewed(1, 7, 0, 0, Initial, ContractorFields("", "", "", "", "", "Co", [], "", "", "", "", [], Basic));
    assert [r][..0] == [];
  }

  // ---------------------------------------------------------------------
  // PATCH /contractor/requests/:id
  // ---------------------------------------------------------------------

  /** An edit form: `None` for each field that is absent or null. */
  datatype RequestPatch = RequestPatch(
    name: Option<string>, email: Option<string>, phone: Option<string>, region: Option<string>,
    bio: Option<string>, companyName: Option<string>, city: Option<string>, description: Option<string>,
    avatar: Option<string>, photos: Option<seq<string>>, services: Option<ServicesInput>)

  /** `if (x != null) update.f = String(x).trim()`. */
  function TrimmedOr(x: Option<string>, current: string): (r: string)
    ensures x.None? ==> r == current
    ensures x.Some? ==> r == Trim(x.value)
  {
    if x.Some? then Trim(x.value) else current
  }

  /** The `$set` of an edit: each given field replaced (trimmed, except the
      avatar), every other field kept, and the request back to review with no
      stamps. No validator runs, so an empty company name is stored. */
  function PatchedRequest(r: ContractorRequest, p: RequestPatch, now: Time): (g: ContractorRequest)
    ensures g.id == r.id && g.owner == r.owner && g.createdAt == r.createdAt && g.updatedAt == now
    ensures g.review == Initial
    ensures g.details.companyName == TrimmedOr(p.companyName, r.details.companyName)
    ensures g.details.services == if p.services.Some? then ParseServices(p.services.value) else r.details.services
    ensures g.details.avatar == if p.avatar.Some? then p.avatar.value else r.details.avatar
    ensures g.details.videoUrl == r.details.videoUrl && g.details.subscriptionTier == r.details.subscriptionTier
  {
    var d := r.details;
    var d' := d.(
      name := TrimmedOr(p.name, d.name),
      email := TrimmedOr(p.email, d.email),
      phone := TrimmedOr(p.phone, d.phone),
      region := TrimmedOr(p.region, d.region),
      bio := TrimmedOr(p.bio, d.bio),
      companyName := TrimmedOr(p.companyName, d.companyName),
      city := TrimmedOr(p.city, d.city),
      description := TrimmedOr(p.description, d.description),
      avatar := if p.avatar.Some? then p.avatar.value else d.avatar,
      photos := if p.photos.Some? then p.photos.value else d.photos,
      services := if p.services.Some? then ParseServices(p.services.value) else d.services);
    r.(details := d', review := Initial, updatedAt := now)
  }

  /** An empty edit changes nothing but the review state and `updatedAt`. */
  lemma EmptyPatchOnlyResubmits(r: ContractorRequest, now: Time)
    ensures PatchedRequest(r, RequestPatch(None, None, None, None, None, None, None, None, None, None, None), now) ==
      r.(review := Initial, updatedAt := now)
  {
  }

  /** `PATCH /contractor/requests/:id`: edits the caller's own request with that id, or answers 404. */
  method PatchContractorRequest(db: Db, userId: Id, reqId: Id, p: RequestPatch, now: Time) returns (reply: Reply)
    modifies db`contractorRequests
    ensures var i := Find(old(db.contractorRequests), reqId, Some(userId));
      (i.None? ==> reply == NotFound && db.contractorRequests == old(db.contractorRequests)) &&
      (i.Some? ==> (reply == Ok &&
        db.contractorRequests == old(db.contractorRequests)[i.value := PatchedRequest(old(db.contractorRequests)[i.value], p, now)]))
  {
    var i := Find(db.contractorRequests, reqId, Some(userId));
    if i.None? {
      return NotFound;
    }
    db.contractorRequests := db.contractorRequests[i.value := PatchedRequest(db.contractorRequests[i.value], p, now)];
    reply := Ok;
  }

  /** An edit re-checks no quota: editing a rejected request makes it count again,
      so a contractor at the cap can go one past it. */
  lemma {:induction false} PatchedRequestCounts(reqs: seq<ContractorRequest>, i: nat, p: RequestPatch, now: Time)
    requires i < |reqs|
    ensures var o := reqs[i].owner;
      Count(reqs[i := PatchedRequest(reqs[i], p, now)], o, Active) ==
      Count(reqs, o, Active) + (if reqs[i].review.status == Rejected then 1 else 0)
  {
    var g := PatchedRequest(reqs[i], p, now);
    assert g.owner == reqs[i].owner && g.review.status == Pending;
    CountUpdate(reqs, i, g, reqs[i].owner, Active);
  }

  /** `DELETE /contractor/requests/:id`: removes the caller's own request with that id, or answers 404. */
  method DeleteContractorRequest(db: Db, userId: Id, reqId: Id) returns (reply: Reply)
    modifies db`contractorRequests
    ensures var i := Find(old(db.contractorRequests), reqId, Some(userId));
      (i.None? ==> reply == NotFound && db.contractorRequests == old(db.contractorRequests)) &&
      (i.Some? ==> (reply == Ok &&
        db.contractorRequests == old(db.contractorRequests)[..i.value] + old(db.contractorRequests)[i.value + 1..]))
  {
    var i := Find(db.contractorRequests, reqId, Some(userId));
    if i.None? {
      return NotFound;
    }
    db.contractorRequests := db.contractorRequests[..i.value] + db.contractorRequests[i.value + 1..];
    reply := Ok;
  }

  // ---------------------------------------------------------------------
  // Subscription requests
  // ---------------------------------------------------------------------

  /** An owner's subscription form; absent text fields are "" and an absent plan is 'Premium'. */
  datatype OwnerSubscriptionForm = OwnerSubscriptionForm(plan: string, ownerFirst: string, ownerLast: string, ownerWhatsapp: string, notes: string)

  /** `POST /owner/subscriptions`: the request stored — VIP exactly when the form
      says 'VIP', Premium for anything else, so the create never fails. */
  function OwnerSubscription(userId: Id, f: OwnerSubscriptionForm, newId: Id, now: Time): (r: SR.SubscriptionRequest)
    ensures r.details.plan == (if f.plan == "VIP" then SR.VIP else SR.Premium)
    ensures r.id == newId && r.owner == userId && r.review == Initial && r.createdAt == now
    ensures r.details.name == Trim(Trim(f.ownerFirst) + " " + Trim(f.ownerLast))
    ensures r.details.whatsapp == Trim(f.ownerWhatsapp) && r.details.notes == Trim(f.notes)
  {
    var plan := if f.plan == "VIP" then "VIP" else "Premium";
    var name := Trim(Trim(f.ownerFirst) + " " + Trim(f.ownerLast));
    SR.Create(newId, userId, now, name, Trim(f.ownerWhatsapp), plan, Trim(f.notes)).value
  }

  method PostOwnerSubscription(db: Db, userId: Id, f: OwnerSubscriptionForm, newId: Id, now: Time) returns (reply: Reply)
    modifies db`subscriptionRequests
    ensures reply == Ok
    ensures db.subscriptionRequests == old(db.subscriptionRequests) + [OwnerSubscription(userId, f, newId, now)]
  {
    db.subscriptionRequests := db.subscriptionRequests + [OwnerSubscription(userId, f, newId, now)];
    reply := Ok;
  }

  /** `POST /contractor/subscriptions`: 400 unless the plan is exactly 'Premium'
      or 'VIP'; otherwise the request stored with the text fields as given. */
  function ContractorSubscription(userId: Id, plan: Field, name: Field, whatsapp: Field, notes: Field, newId: Id, now: Time)
    : (o: Option<SR.SubscriptionRequest>)
    ensures o.None? <==> plan != Text("Premium") && plan != Text("VIP")
    ensures o.Some? ==> SR.PlanName(o.value.details.plan) == plan.s && o.value.owner == userId && o.value.review == Initial
    ensures o.Some? ==> o.value.details.name == TextOr(name) && o.value.details.notes == TextOr(notes)
  {
    if plan != Text("Premium") && plan != Text("VIP") then None
    else SR.Create(newId, userId, now, TextOr(name), TextOr(whatsapp), plan.s, TextOr(notes))
  }

  method PostContractorSubscription(db: Db, userId: Id, plan: Field, name: Field, whatsapp: Field, notes: Field, newId: Id, now: Time)
    returns (reply: Reply)
    modifies db`subscriptionRequests
    ensures var o := ContractorSubscription(userId, plan, name, whatsapp, notes, newId, now);
      (o.None? ==> reply == BadRequest && db.subscriptionRequests == old(db.subscriptionRequests)) &&
      (o.Some? ==> reply == Ok && db.subscriptionRequests == old(db.subscriptionRequests) + [o.value])
  {
    var o := ContractorSubscription(userId, plan, name, whatsapp, notes, newId, now);
    if o.None? {
      return BadRequest;
    }
    db.subscriptionRequests := db.subscriptionRequests + [o.value];
    reply := Ok;
  }

  /** This file's approval: status approved and note cleared, but no approval time is written. */
  function MarkApproved(r: Review): (r': Review)
    ensures r'.status == Approved && r'.reviewNote == ""
    ensures r'.approvedAt == r.approvedAt && r'.rejectedAt == r.rejectedAt
  {
    r.(status := Approved, reviewNote := "")
  }

  /** This file's rejection: status rejected and the note, but no rejection time. */
  function MarkRejected(r: Review, note: string): (r': Review)
    ensures r'.status == Rejected && r'.reviewNote == note
    ensures r'.approvedAt == r.approvedAt && r'.rejectedAt == r.rejectedAt
  {
    r.(status := Rejected, reviewNote := note)
  }

  /** Approving or rejecting a fresh request this way leaves it without the stamp
      its status calls for. */
  lemma MarkedUnstamped(note: string)
    ensures !Stamped(MarkApproved(Initial)) && !Stamped(MarkRejected(Initial, note))
  {
  }

  /** `findByIdAndUpdate(user, { subscriptionTier: plan })`: only the tier; nothing when there is no such user. */
  function SetTier(users: map<Id, User>, userId: Id, plan: SR.Plan): (users': map<Id, User>)
    ensures users'.Keys == users.Keys
    ensures userId in users ==> users'[userId] == users[userId].(subscriptionTier := SR.PlanName(plan))
    ensures forall u :: u in users && u != userId ==> users'[u] == users[u]
  {
    if userId in users then users[userId := users[userId].(subscriptionTier := SR.PlanName(plan))] else users
  }

  /** After this approval the quota reads the new plan, but the profile guard,
      which reads `plan`, still applies the old one. */
  lemma SetTierSplitsPlans(users: map<Id, User>, userId: Id, plan: SR.Plan)
    requires userId in users
    ensures QuotaPlan(SetTier(users, userId, plan), userId) == SR.PlanName(plan)
    ensures ProfilePlan(SetTier(users, userId, plan), userId) == ProfilePlan(users, userId)
  {
  }

  /** `PATCH /admin/subscriptions/:id/approve` as this file writes it (the admin
      router, mounted first at the same path, answers instead). */
  method ApproveSubscription(db: Db, reqId: Id, now: Time) returns (reply: Reply)
    modifies db`subscriptionRequests, db`users
    ensures var i := Find(old(db.subscriptionRequests), reqId, None);
      (i.None? ==> reply == NotFound && unchanged(db)) &&
      (i.Some? ==> (reply == Ok &&
        var r := old(db.subscriptionRequests)[i.value];
        db.subscriptionRequests == old(db.subscriptionRequests)[i.value := r.(review := MarkApproved(r.review), updatedAt := now)] &&
        db.users == SetTier(old(db.users), r.owner, r.details.plan)))
  {
    var i := Find(db.subscriptionRequests, reqId, None);
    if i.None? {
      return NotFound;
    }
    var r := db.subscriptionRequests[i.value];
    db.subscriptionRequests := db.subscriptionRequests[i.value := r.(review := MarkApproved(r.review), updatedAt := now)];
    db.users := SetTier(db.users, r.owner, r.details.plan);
    reply := Ok;
  }

  /** `PATCH /admin/subscriptions/:id/reject` as this file writes it. */
  method RejectSubscription(db: Db, reqId: Id, note: string, now: Time) returns (reply: Reply)
    modifies db`subscriptionRequests
    ensures var i := Find(old(db.subscriptionRequests), reqId, None);
      (i.None? ==> reply == NotFound && db.subscriptionRequests == old(db.subscriptionRequests)) &&
      (i.Some? ==> (reply == Ok &&
        var r := old(db.subscriptionRequests)[i.value];
        db.subscriptionRequests == old(db.subscriptionRequests)[i.value := r.(review := MarkRejected(r.review, note), updatedAt := now)]))
  {
    var i := Find(db.subscriptionRequests, reqId, None);
    if i.None? {
      return NotFound;
    }
    var r := db.subscriptionRequests[i.value];
    db.subscriptionRequests := db.subscriptionRequests[i.value := r.(review := MarkRejected(r.review, note), updatedAt := now)];
    reply := Ok;
  }

  // ---------------------------------------------------------------------
  // POST /owner/lands (this file's handler)
  // ---------------------------------------------------------------------

  /** The unvalidated create: fields read as the edit handler reads them, the
      `desc` field preferred to `description`, no quota consulted. */
  function PostLandUnguarded(userId: Id, b: Owner.LandPatch, newId: Id, now: Time): (o: Option<FarmModel.Farm>)
    ensures o.None? <==> Trim(TextOr(b.title)) == ""
    ensures o.Some? ==> o.value.owner == userId && o.value.review == Initial && o.value.details.title == Trim(TextOr(b.title))
    ensures o.Some? ==> (o.value.details.kind == FarmModel.Rent <==> b.kind == Text("rent"))
  {
    var description := Trim(if TextOr(b.desc) != "" then TextOr(b.desc) else TextOr(b.description));
    FarmModel.Create(newId, userId, now, FarmModel.NewFarm(
      Trim(TextOr(b.title)), Some(if b.kind == Text("rent") then FarmModel.Rent else FarmModel.Sale),
      Trim(TextOr(b.area)), Trim(TextOr(b.city)), Owner.NumberOr0(b.size), Owner.NumberOr0(b.price),
      Some(Trim(TextOr(b.videoUrl))), description))
  }

  /** `POST /owner/lands` as this file writes it: 500 for a blank title, otherwise a new pending farm. */
  method PostLandsUnguarded(db: Db, userId: Id, b: Owner.LandPatch, newId: Id, now: Time) returns (reply: Reply)
    modifies db`farms
    ensures var o := PostLandUnguarded(userId, b, newId, now);
      (o.None? ==> reply == ServerError && db.farms == old(db.farms)) &&
      (o.Some? ==> reply == Ok && db.farms == old(db.farms) + [o.value])
  {
    var o := PostLandUnguarded(userId, b, newId, now);
    if o.None? {
      return ServerError;
    }
    db.farms := db.farms + [o.value];
    reply := Ok;
  }

  /** This handler admits a listing whatever the owner already has: each accepted
      call adds one to the owner's count, beyond any plan's cap. */
  lemma {:induction false} UnguardedIgnoresCap(farms: seq<FarmModel.Farm>, userId: Id, b: Owner.LandPatch, newId: Id, now: Time)
    requires Trim(TextOr(b.title)) != ""
    ensures Count(farms + [PostLandUnguarded(userId, b, newId, now).value], userId, Owner.AllStatuses) ==
      Count(farms, userId, Owner.AllStatuses) + 1
  {
    var f := PostLandUnguarded(userId, b, newId, now).value;
    CountsAll(f, userId);
    CountAppend(farms, f, userId, Owner.AllStatuses);
  }
}
