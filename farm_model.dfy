/** The Farm record (models/farmModel.js): enums, defaults, the required
    title, and the seven-day expiry of rejected farms. */
module FarmModel {
  import opened Common
  import opened Reviews

  datatype Kind = Sale | Rent

  function KindName(k: Kind): string {
    match k
    case Sale => "sale"
    case Rent => "rent"
  }

  /** The listing fields of a farm besides its owner, timestamps and review state. */
  datatype FarmFields = FarmFields(
    title: string, kind: Kind, area: string, city: string,
    size: real, price: real, views: nat, videoUrl: string, description: string)

  type Farm = Reviewed<FarmFields>

  /** What `Farm.create` is given; an absent kind or videoUrl takes the schema default. */
  datatype NewFarm = NewFarm(
    title: string, kind: Option<Kind>, area: string, city: string,
    size: real, price: real, videoUrl: Option<string>, description: string)

  /** `Farm.create(...)`: fails validation when the required title is empty; otherwise
      the document starts pending with no stamps, an empty note, no views, kind
      'sale' and an empty video URL unless given, and both timestamps at `now`. */
  function Create(id: Id, owner: Id, now: Time, n: NewFarm): (r: Option<Farm>)
    ensures r.None? <==> n.title == ""
    ensures r.Some? ==> r.value.id == id && r.value.owner == owner
    ensures r.Some? ==> r.value.review == Initial && r.value.details.views == 0
    ensures r.Some? ==> r.value.createdAt == now && r.value.updatedAt == now
    ensures r.Some? ==> r.value.details.kind == (if n.kind.Some? then n.kind.value else Sale)
    ensures r.Some? ==> r.value.details.videoUrl == (if n.videoUrl.Some? then n.videoUrl.value else "")
    ensures r.Some? ==> r.value.details.title == n.title
  {
    if n.title == "" then None
    else
      var kind := if n.kind.Some? then n.kind.value else Sale;
      var video := if n.videoUrl.Some? then n.videoUrl.value else "";
      Some(Reviewed(id, owner, now, now, Initial,
        FarmFields(n.title, kind, n.area, n.city, n.size, n.price, 0, video, n.description)))
  }

  // ---------------------------------------------------------------------
  // The TTL index on rejectedAt
  // ---------------------------------------------------------------------

  /** `expireAfterSeconds: 60 * 60 * 24 * 7`, in milliseconds. */
  const TtlMillis: int := 60 * 60 * 24 * 7 * 1000

  /** The TTL index removes a farm once its `rejectedAt` is more than seven days
      old; a farm whose `rejectedAt` is null is never removed, whatever its status. */
  predicate TtlExpired(f: Farm, now: Time) {
    f.review.rejectedAt.Some? && now > f.review.rejectedAt.value + TtlMillis
  }

  /** A farm with no rejection stamp outlives every instant. */
  lemma NoStampNoExpiry(f: Farm, now: Time)
    requires f.review.rejectedAt.None?
    ensures !TtlExpired(f, now)
  {
  }

  /** Approval as a farm needs it: approved, stamped, note cleared, and the stamp
      of any earlier rejection removed so that the TTL index no longer applies. */
  function ApproveFarm(r: Review, now: Time): (r': Review)
    ensures r'.status == Approved && r'.approvedAt == Some(now) && r'.reviewNote == ""
    ensures r'.rejectedAt.None?
  {
    Approve(r, now).(rejectedAt := None)
  }

  /** The farm lifecycle with that approval. */
  function FarmStep(r: Review, e: Event): Review {
    match e
    case Approval(at) => ApproveFarm(r, at)
    case Rejection(at, note) => Reject(r, at, note)
    case Edit => Initial
  }

  function FarmReplay(r: Review, es: seq<Event>): Review {
    if es == [] then r else FarmStep(FarmReplay(r, es[..|es| - 1]), es[|es| - 1])
  }

  /** Only a rejected farm carries a rejection stamp. */
  ghost predicate TtlSafe(r: Review) {
    r.rejectedAt.Some? ==> r.status == Rejected
  }

  /** Whatever a farm goes through, it stays stamped, its status is what the last
      event made it, and only a rejected farm is ever left to the TTL index. */
  lemma {:induction false} FarmReplaySafe(es: seq<Event>)
    ensures Stamped(FarmReplay(Initial, es)) && TtlSafe(FarmReplay(Initial, es))
    ensures es != [] ==> FarmReplay(Initial, es).status == StatusAfter(es[|es| - 1])
  {
    if es != [] {
      FarmReplaySafe(es[..|es| - 1]);
    }
  }

  /** Under that lifecycle the TTL index removes rejected farms and nothing else. */
  lemma TtlRemovesOnlyRejected(f: Farm, es: seq<Event>, now: Time)
    requires f.review == FarmReplay(Initial, es)
    requires TtlExpired(f, now)
    ensures f.review.status == Rejected
  {
    FarmReplaySafe(es);
  }

  /** With approval as the admin router writes it (`rejectedAt` kept), a farm that
      was rejected and then approved is removed by the TTL index seven days after
      the rejection although it is approved. */
  lemma ApprovedFarmExpiresAsWritten(f: Farm)
    requires f.review == Replay(Initial, [Rejection(0, ""), Approval(1)])
    ensures f.review.status == Approved
    ensures TtlExpired(f, TtlMillis + 1)
  {
    assert [Rejection(0, ""), Approval(1)][..1] == [Rejection(0, "")];
    assert [Rejection(0, "")][..0] == [];
  }
}
