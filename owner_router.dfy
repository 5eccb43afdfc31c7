/** routers/ownerRouter.js: a landowner's own listings — create under the
    plan's quota, list, read, edit (which sends the listing back to review)
    and delete, and the quota report. */
module OwnerRouter {
  import opened Common
  import opened Reviews
  import opened Sorting
  import opened FarmModel
  import opened Store
  import Config = SubscriptionConfigModel

  /** Every status: `countDocuments({ owner })` counts the owner's farms whatever their state. */
  const AllStatuses: set<Status> := {Pending, Approved, Rejected}

  /** `planLimit(plan)`: VIP is unlimited, Premium allows two listings, any other name one. */
  function PlanLimit(plan: string): Cap {
    if plan == "VIP" then Unlimited
    else if plan == "Premium" then Finite(2)
    else Finite(1)
  }

  /** The caps rise with the plan, and only VIP is unlimited. */
  lemma PlanLimitOrdered(plan: string)
    ensures PlanLimit(plan).Unlimited? <==> plan == "VIP"
    ensures PlanLimit(plan).Finite? ==> 1 <= PlanLimit(plan).n <= PlanLimit("Premium").n
  {
  }

  /** The stored configuration's defaults give Basic and Premium the caps the
      router applies, but VIP 999 where the router applies no cap at all: the two
      differ from the 999th listing on. */
  lemma PlanLimitVersusConfig()
    ensures PlanLimit("Basic") == Finite(Config.Defaults.basicLimit)
    ensures PlanLimit("Premium") == Finite(Config.Defaults.premiumLimit)
    ensures Finite(Config.Defaults.vipLimit).Reached(999) && !PlanLimit("VIP").Reached(999)
  {
  }

  /** `user?.subscriptionTier || 'Basic'`: the stored tier, or Basic when there is
      no user or no tier. */
  function OwnerPlan(users: map<Id, User>, userId: Id): (plan: string)
    ensures plan != ""
    ensures userId in users && users[userId].subscriptionTier != "" ==> plan == users[userId].subscriptionTier
    ensures userId !in users || users[userId].subscriptionTier == "" ==> plan == "Basic"
  {
    if userId in users && users[userId].subscriptionTier != "" then users[userId].subscriptionTier else "Basic"
  }

  // ---------------------------------------------------------------------
  // landSchema
  // ---------------------------------------------------------------------

  /** A listing form. Numbers are `None` when absent or not numeric. The owner's
      contact fields and the three extra descriptions are validated but not
      stored by this model; of the photos and the location only whether they
      have the shape the schema asks for is kept. */
  datatype LandBody = LandBody(
    ownerFirst: Field, ownerLast: Field, ownerWhatsapp: Field,
    title: Field, kind: Field, area: Field, city: Field,
    size: Option<real>, price: Option<real>,
    photosValid: bool,
    poolDesc: Field, amenitiesDesc: Field, buildingDesc: Field,
    description: Field, desc: Field, videoUrl: Field,
    locationValid: bool,
    unknownKeys: bool)

  /** `Joi.string().min(n).required()`. */
  predicate RequiredText(f: Field, n: nat) {
    f.Text? && |f.s| >= n && f.s != ""
  }

  /** `Joi.string().allow('')`: absent, or any string (not null). */
  predicate OptionalText(f: Field) {
    f.Missing? || f.Text?
  }

  predicate IsLetter(c: char) {
    'a' <= c <= 'z' || 'A' <= c <= 'Z'
  }

  predicate IsSchemeChar(c: char) {
    IsLetter(c) || '0' <= c <= '9' || c == '+' || c == '-' || c == '.'
  }

  /** The scheme part of `Joi.string().uri()`: a letter, scheme characters, a colon. */
  predicate HasScheme(s: string) {
    s != [] && IsLetter(s[0]) && SchemeThenColon(s, 1)
  }

  /** From position `i` on, scheme characters and then a colon. */
  predicate SchemeThenColon(s: string, i: nat)
    decreases |s| - i
  {
    i < |s| && (s[i] == ':' || (IsSchemeChar(s[i]) && SchemeThenColon(s, i + 1)))
  }

  /** `Joi.string().uri().allow('')`: absent, empty, or a URI. */
  predicate VideoUrlValid(f: Field) {
    f.Missing? || (f.Text? && (f.s == "" || HasScheme(f.s)))
  }

  /** `landSchema.validate(body)` succeeds. `photosValid` stands for "absent or
      an array of strings", `locationValid` for "absent, null, or an object whose
      `lat` and `lng` are numbers and whose `address` is a string". */
  predicate LandValid(b: LandBody) {
    OptionalText(b.ownerFirst) && OptionalText(b.ownerLast) && OptionalText(b.ownerWhatsapp) &&
    RequiredText(b.title, 3) &&
    b.kind in {Text("sale"), Text("rent")} &&
    RequiredText(b.area, 2) &&
    OptionalText(b.city) &&
    b.size.Some? && b.size.value >= 0.0 &&
    b.price.Some? && b.price.value >= 0.0 &&
    b.photosValid &&
    OptionalText(b.poolDesc) && OptionalText(b.amenitiesDesc) && OptionalText(b.buildingDesc) &&
    OptionalText(b.description) && OptionalText(b.desc) &&
    VideoUrlValid(b.videoUrl) &&
    b.locationValid &&
    !b.unknownKeys
  }

  /** `(value.description ?? value.desc ?? '').toString().trim()`. */
  function PostedDescription(b: LandBody): string {
    Trim(if b.description.Text? then b.description.s else TextOr(b.desc))
  }

  /** The document the create call is given. */
  function NewLand(b: LandBody): NewFarm {
    NewFarm(Trim(TextOr(b.title)), Some(if b.kind == Text("rent") then Rent else Sale),
      Trim(TextOr(b.area)), Trim(TextOr(b.city)),
      if b.size.Some? then b.size.value else 0.0, if b.price.Some? then b.price.value else 0.0,
      Some(Trim(TextOr(b.videoUrl))), PostedDescription(b))
  }

  // ---------------------------------------------------------------------
  // POST /owner/lands
  // ---------------------------------------------------------------------

  datatype PostOutcome = PostOutcome(reply: Reply, created: Option<Farm>)

  /** The farms a request adds: the created one, if any. */
  function Added(o: PostOutcome): seq<Farm> {
    if o.created.Some? then [o.created.value] else []
  }

  /** The answer to a listing form and the farm it adds. */
  function PostLand(users: map<Id, User>, farms: seq<Farm>, userId: Id, b: LandBody, newId: Id, now: Time): PostOutcome
  {
    if !LandValid(b) then PostOutcome(BadRequest, None)
    else if PlanLimit(OwnerPlan(users, userId)).Reached(Count(farms, userId, AllStatuses)) then PostOutcome(Forbidden, None)
    else
      match Create(newId, userId, now, NewLand(b))
      case None => PostOutcome(ServerError, None)
      case Some(f) => PostOutcome(Ok, Some(f))
  }

  /** 400 for an invalid form, 403 once the owner's farms (of every status)
      reach the plan's cap, 500 when the title is blank once trimmed (the schema
      requires it), otherwise a new pending farm built from the form. */
  lemma PostLandDecides(users: map<Id, User>, farms: seq<Farm>, userId: Id, b: LandBody, newId: Id, now: Time, o: PostOutcome)
    requires o == PostLand(users, farms, userId, b, newId, now)
    ensures o.created.Some? <==> o.reply == Ok
    ensures o.reply in {Ok, BadRequest, Forbidden, ServerError}
    ensures o.reply == BadRequest <==> !LandValid(b)
    ensures o.reply == Forbidden <==>
      LandValid(b) && PlanLimit(OwnerPlan(users, userId)).Reached(Count(farms, userId, AllStatuses))
    ensures o.reply == ServerError ==> Trim(b.title.s) == ""
    ensures o.created.Some? ==>
      var f := o.created.value;
      f.id == newId && f.owner == userId && f.review == Initial && f.createdAt == now &&
      f.details.title == Trim(b.title.s) && f.details.title != "" &&
      (f.details.kind == Rent <==> b.kind == Text("rent")) &&
      f.details.size == b.size.value && f.details.price == b.price.value &&
      f.details.description == PostedDescription(b) && f.details.views == 0
  {
  }

  /** `POST /owner/lands`. The new document's id is a parameter. */
  method PostLands(db: Db, userId: Id, b: LandBody, newId: Id, now: Time) returns (reply: Reply)
    modifies db`farms
    ensures reply == PostLand(db.users, old(db.farms), userId, b, newId, now).reply
    ensures db.farms == old(db.farms) + Added(PostLand(db.users, old(db.farms), userId, b, newId, now))
  {
    if !LandValid(b) {
      assert PostLand(db.users, db.farms, userId, b, newId, now) == PostOutcome(BadRequest, None);
      assert db.farms + [] == db.farms;
      return BadRequest;
    }
    var plan := OwnerPlan(db.users, userId);
    var limit := PlanLimit(plan);
    var used := Count(db.farms, userId, AllStatuses);
    if limit.Reached(used) {
      assert PostLand(db.users, db.farms, userId, b, newId, now) == PostOutcome(Forbidden, None);
      assert db.farms + [] == db.farms;
      return Forbidden;
    }
    var doc := Create(newId, userId, now, NewLand(b));
    if doc.None? {
      assert PostLand(db.users, db.farms, userId, b, newId, now) == PostOutcome(ServerError, None);
      assert db.farms + [] == db.farms;
      return ServerError;
    }
    assert PostLand(db.users, db.farms, userId, b, newId, now) == PostOutcome(Ok, doc);
    db.farms := db.farms + [doc.value];
    reply := Ok;
  }

  /** An accepted listing adds exactly one pending farm of the owner. */
  lemma PostLandAddsOne(users: map<Id, User>, farms: seq<Farm>, userId: Id, b: LandBody, newId: Id, now: Time)
    requires PostLand(users, farms, userId, b, newId, now).reply == Ok
    ensures var farms' := farms + [PostLand(users, farms, userId, b, newId, now).created.value];
      Count(farms', userId, AllStatuses) == Count(farms, userId, AllStatuses) + 1 &&
      Count(farms', userId, {Pending}) == Count(farms, userId, {Pending}) + 1 &&
      Count(farms', userId, {Approved}) == Count(farms, userId, {Approved})
  {
    var o := PostLand(users, farms, userId, b, newId, now);
    PostLandDecides(users, farms, userId, b, newId, now, o);
    var f := o.created.value;
    assert f.owner == userId && f.review.status == Pending;
    CountsAll(f, userId);
    CountAppend(farms, f, userId, AllStatuses);
    CountAppend(farms, f, userId, {Pending});
    CountAppend(farms, f, userId, {Approved});
  }

  /** The guard keeps an owner within the plan's cap: an owner with no more farms
      than the cap has no more than the cap after any listing request. */
  lemma PostLandWithinCap(users: map<Id, User>, farms: seq<Farm>, userId: Id, b: LandBody, newId: Id, now: Time)
    requires PlanLimit(OwnerPlan(users, userId)).Finite?
    requires Count(farms, userId, AllStatuses) <= PlanLimit(OwnerPlan(users, userId)).n
    ensures Count(farms + Added(PostLand(users, farms, userId, b, newId, now)), userId, AllStatuses) <= PlanLimit(OwnerPlan(users, userId)).n
  {
    var o := PostLand(users, farms, userId, b, newId, now);
    if o.created.Some? {
      PostLandAddsOne(users, farms, userId, b, newId, now);
    } else {
      assert farms + [] == farms;
    }
  }

  // ---------------------------------------------------------------------
  // GET /owner/lands/quota
  // ---------------------------------------------------------------------

  datatype LandQuota = LandQuota(plan: string, limit: Cap, used: nat, left: Cap)

  /** `{ plan, limit, used, left }`: `left` is unlimited with the cap and otherwise
      what remains of it, never below zero. */
  function Quota(users: map<Id, User>, farms: seq<Farm>, userId: Id): (q: LandQuota)
    ensures q.plan == OwnerPlan(users, userId) && q.limit == PlanLimit(q.plan)
    ensures q.used == Count(farms, userId, AllStatuses)
    ensures q.left.Unlimited? <==> q.limit.Unlimited?
    ensures q.limit.Finite? ==> q.left.n + q.used >= q.limit.n && (q.left.n == 0 || q.left.n + q.used == q.limit.n)
  {
    var plan := OwnerPlan(users, userId);
    var limit := PlanLimit(plan);
    var used := Count(farms, userId, AllStatuses);
    LandQuota(plan, limit, used, if limit.Unlimited? then Unlimited else Finite(Max0(limit.n - used)))
  }

  /** The quota report agrees with the create guard: for a valid form, the
      request is refused exactly when the report shows nothing left. */
  lemma QuotaAgreesWithGuard(users: map<Id, User>, farms: seq<Farm>, userId: Id, b: LandBody, newId: Id, now: Time)
    requires LandValid(b)
    ensures Quota(users, farms, userId).left == Finite(0) <==> PostLand(users, farms, userId, b, newId, now).reply == Forbidden
  {
  }

  // ---------------------------------------------------------------------
  // GET /owner/lands
  // ---------------------------------------------------------------------

  /** The farms of one owner, in collection order. */
  function OwnedBy(s: seq<Farm>, owner: Id): (r: seq<Farm>)
    ensures |r| == Count(s, owner, AllStatuses)
    ensures forall f :: f in r ==> f in s && f.owner == owner
    ensures forall i :: 0 <= i < |s| && s[i].owner == owner ==> s[i] in r
  {
    if s == [] then []
    else
      var init := s[..|s| - 1];
      assert forall i :: 0 <= i < |init| ==> init[i] == s[i];
      CountsAll(s[|s| - 1], owner);
      OwnedBy(init, owner) + (if s[|s| - 1].owner == owner then [s[|s| - 1]] else [])
  }

  predicate NewerOrSame(a: Farm, b: Farm) {
    a.createdAt >= b.createdAt
  }

  /** `Farm.find({ owner }).sort({ createdAt: -1 })`. */
  function OwnLands(farms: seq<Farm>, owner: Id): seq<Farm> {
    Sort(OwnedBy(farms, owner), NewerOrSame)
  }

  /** The list holds every farm of the owner and nothing else, newest first. */
  lemma OwnLandsSpec(farms: seq<Farm>, owner: Id)
    ensures multiset(OwnLands(farms, owner)) == multiset(OwnedBy(farms, owner))
    ensures |OwnLands(farms, owner)| == Count(farms, owner, AllStatuses)
    ensures forall f :: f in OwnLands(farms, owner) <==> f in farms && f.owner == owner
    ensures SortedBy(OwnLands(farms, owner), NewerOrSame)
  {
    var r := OwnLands(farms, owner);
    assert |multiset(r)| == |multiset(OwnedBy(farms, owner))|;
    forall f
      ensures f in r <==> f in farms && f.owner == owner
    {
      assert f in r <==> f in multiset(r);
      if f in farms && f.owner == owner {
        var i :| 0 <= i < |farms| && farms[i] == f;
      }
    }
    SortSorted(OwnedBy(farms, owner), NewerOrSame);
  }

  // ---------------------------------------------------------------------
  // PATCH /owner/lands/:id
  // ---------------------------------------------------------------------

  /** An edit form; the handler validates nothing. Numbers are `None` when absent
      or not numeric. The photos, the owner's contact fields, the three extra
      descriptions and the location are not part of this model. */
  datatype LandPatch = LandPatch(
    title: Field, kind: Field, area: Field, city: Field,
    size: Option<real>, price: Option<real>,
    description: Field, desc: Field, videoUrl: Field)

  /** `Number(x) || 0`. */
  function NumberOr0(x: Option<real>): real {
    if x.Some? then x.value else 0.0
  }

  /** The `$set` of an edit: every listed field is overwritten from the form and
      the farm goes back to review with no stamps; the views, the owner and the
      creation time stay. No validator runs, so an empty title is stored. */
  function Patched(f: Farm, b: LandPatch, now: Time): (g: Farm)
    ensures g.id == f.id && g.owner == f.owner && g.createdAt == f.createdAt && g.updatedAt == now
    ensures g.review == Initial && g.details.views == f.details.views
    ensures g.details.title == Trim(TextOr(b.title)) && (g.details.kind == Rent <==> b.kind == Text("rent"))
    ensures g.details.description == if TextOr(b.description) != "" then TextOr(b.description) else TextOr(b.desc)
  {
    var d := f.details.(
      title := Trim(TextOr(b.title)),
      kind := if b.kind == Text("rent") then Rent else Sale,
      area := Trim(TextOr(b.area)),
      city := Trim(TextOr(b.city)),
      size := NumberOr0(b.size),
      price := NumberOr0(b.price),
      description := if TextOr(b.description) != "" then TextOr(b.description) else TextOr(b.desc),
      videoUrl := Trim(TextOr(b.videoUrl)));
    f.(details := d, review := Initial, updatedAt := now)
  }

  /** `PATCH /owner/lands/:id`: edits the owner's farm with that id, or answers 404. */
  method PatchLand(db: Db, userId: Id, farmId: Id, b: LandPatch, now: Time) returns (reply: Reply)
    modifies db`farms
    ensures var i := Find(old(db.farms), farmId, Some(userId));
      (i.None? ==> reply == NotFound && db.farms == old(db.farms)) &&
      (i.Some? ==> reply == Ok && db.farms == old(db.farms)[i.value := Patched(old(db.farms)[i.value], b, now)])
  {
    var i := Find(db.farms, farmId, Some(userId));
    if i.None? {
      return NotFound;
    }
    db.farms := db.farms[i.value := Patched(db.farms[i.value], b, now)];
    reply := Ok;
  }

  /** An edit uses no quota, withdraws an approval, and leaves the farm pending. */
  lemma {:induction false} PatchedCounts(farms: seq<Farm>, i: nat, b: LandPatch, now: Time)
    requires i < |farms|
    ensures var farms' := farms[i := Patched(farms[i], b, now)]; var o := farms[i].owner;
      Count(farms', o, AllStatuses) == Count(farms, o, AllStatuses) &&
      Count(farms', o, {Approved}) == Count(farms, o, {Approved}) - (if farms[i].review.status == Approved then 1 else 0) &&
      Count(farms', o, {Pending}) == Count(farms, o, {Pending}) + (if farms[i].review.status == Pending then 0 else 1)
  {
    var g := Patched(farms[i], b, now);
    assert g.owner == farms[i].owner && g.review.status == Pending;
    assert !Counts(g, g.owner, {Approved}) && Counts(g, g.owner, {Pending});
    CountsAll(g, farms[i].owner);
    CountsAll(farms[i], farms[i].owner);
    CountUpdate(farms, i, g, farms[i].owner, AllStatuses);
    CountUpdate(farms, i, g, farms[i].owner, {Approved});
    CountUpdate(farms, i, g, farms[i].owner, {Pending});
  }

  // ---------------------------------------------------------------------
  // DELETE /owner/lands/:id
  // ---------------------------------------------------------------------

  /** `DELETE /owner/lands/:id`: removes the owner's farm with that id, or answers 404. */
  method DeleteLand(db: Db, userId: Id, farmId: Id) returns (reply: Reply)
    modifies db`farms
    ensures var i := Find(old(db.farms), farmId, Some(userId));
      (i.None? ==> reply == NotFound && db.farms == old(db.farms)) &&
      (i.Some? ==> reply == Ok && db.farms == old(db.farms)[..i.value] + old(db.farms)[i.value + 1..])
  {
    var i := Find(db.farms, farmId, Some(userId));
    if i.None? {
      return NotFound;
    }
    db.farms := db.farms[..i.value] + db.farms[i.value + 1..];
    reply := Ok;
  }

  // ---------------------------------------------------------------------
  // GET /owner/lands/:id
  // ---------------------------------------------------------------------

  /** `GET /owner/lands/:id`: the caller's farm with that id; `None` (404) when no
      farm has that id or another user owns it. */
  function OwnLand(farms: seq<Farm>, userId: Id, farmId: Id): (r: Option<Farm>)
    ensures r.Some? ==> r.value in farms && r.value.id == farmId && r.value.owner == userId
    ensures r.None? <==> forall f :: f in farms ==> f.id != farmId || f.owner != userId
  {
    var i := Find(farms, farmId, Some(userId));
    if i.None? then None else Some(farms[i.value])
  }
}
