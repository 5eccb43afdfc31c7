/** The review state shared by the three reviewed collections (farms,
    contractor requests, subscription requests): a status, the two decision
    stamps and the reviewer's note, with the transitions the routers write,
    and the owner-scoped counts the quota guards take over a collection. */
module Reviews {
  import opened Common

  datatype Status = Pending | Approved | Rejected

  datatype Review = Review(status: Status, approvedAt: Option<Time>, rejectedAt: Option<Time>, reviewNote: string)

  /** The schema defaults of every reviewed record: pending, no stamps, empty note. */
  const Initial: Review := Review(Pending, None, None, "")

  /** A document of a reviewed collection: its id, the user it belongs to (`owner`
      of a farm, `user` of a contractor or subscription request), the two
      timestamps the schemas keep, its review state and the rest of its fields. */
  datatype Reviewed<D> = Reviewed(id: Id, owner: Id, createdAt: Time, updatedAt: Time, review: Review, details: D)

  /** `{status:'approved', approvedAt: now, reviewNote: ''}`; `rejectedAt` is left as it was. */
  function Approve(r: Review, now: Time): Review {
    r.(status := Approved, approvedAt := Some(now), reviewNote := "")
  }

  /** `{status:'rejected', rejectedAt: now, reviewNote: note}`; `approvedAt` is left as it was. */
  function Reject(r: Review, now: Time, note: string): Review {
    r.(status := Rejected, rejectedAt := Some(now), reviewNote := note)
  }

  // ---------------------------------------------------------------------
  // Lifecycle
  // ---------------------------------------------------------------------

  /** What can happen to a record under review: an administrator's approval or
      rejection (or the expiry rejection, which writes the same fields), or an
      edit by its owner, which sends it back to review. */
  datatype Event = Approval(at: Time) | Rejection(at: Time, note: string) | Edit

  function Step(r: Review, e: Event): Review {
    match e
    case Approval(at) => Approve(r, at)
    case Rejection(at, note) => Reject(r, at, note)
    case Edit => Initial
  }

  function Replay(r: Review, es: seq<Event>): Review {
    if es == [] then r else Step(Replay(r, es[..|es| - 1]), es[|es| - 1])
  }

  /** The status an event leaves behind. */
  function StatusAfter(e: Event): Status {
    match e
    case Approval(_) => Approved
    case Rejection(_, _) => Rejected
    case Edit => Pending
  }

  /** An approved record carries its approval time and a rejected one its rejection time. */
  ghost predicate Stamped(r: Review) {
    (r.status == Approved ==> r.approvedAt.Some?) &&
    (r.status == Rejected ==> r.rejectedAt.Some?)
  }

  /** Every history from the initial state leaves a record stamped, and its status
      is the one the last event gave it. */
  lemma {:induction false} ReplayStamped(es: seq<Event>)
    ensures Stamped(Replay(Initial, es))
    ensures es == [] ==> Replay(Initial, es).status == Pending
    ensures es != [] ==> Replay(Initial, es).status == StatusAfter(es[|es| - 1])
  {
    if es != [] {
      ReplayStamped(es[..|es| - 1]);
    }
  }

  // ---------------------------------------------------------------------
  // Owner-scoped counts (`countDocuments({owner, status: {$in: statuses}})`)
  // ---------------------------------------------------------------------

  predicate Counts<D>(x: Reviewed<D>, owner: Id, statuses: set<Status>) {
    x.owner == owner && x.review.status in statuses
  }

  function Count<D>(s: seq<Reviewed<D>>, owner: Id, statuses: set<Status>): (n: nat)
    ensures n <= |s|
  {
    if s == [] then 0
    else Count(s[..|s| - 1], owner, statuses) + (if Counts(s[|s| - 1], owner, statuses) then 1 else 0)
  }

  /** With every status in the filter, a document counts exactly when it is the owner's. */
  lemma CountsAll<D>(x: Reviewed<D>, owner: Id)
    ensures Counts(x, owner, {Pending, Approved, Rejected}) <==> x.owner == owner
  {
    match x.review.status
    case Pending =>
    case Approved =>
    case Rejected =>
  }

  /** The positions of the counted documents. */
  ghost function Matching<D>(s: seq<Reviewed<D>>, owner: Id, statuses: set<Status>): set<nat> {
    set i: nat | i < |s| && Counts(s[i], owner, statuses)
  }

  /** The count is the number of documents the filter matches. */
  lemma {:induction false} CountIsCard<D>(s: seq<Reviewed<D>>, owner: Id, statuses: set<Status>)
    ensures Count(s, owner, statuses) == |Matching(s, owner, statuses)|
  {
    if s != [] {
      var init := s[..|s| - 1];
      CountIsCard(init, owner, statuses);
      if Counts(s[|s| - 1], owner, statuses) {
        assert Matching(s, owner, statuses) == Matching(init, owner, statuses) + {|s| - 1};
      } else {
        assert Matching(s, owner, statuses) == Matching(init, owner, statuses);
      }
    }
  }

  /** Adding a document adds one to the count exactly when the filter matches it. */
  lemma CountAppend<D>(s: seq<Reviewed<D>>, x: Reviewed<D>, owner: Id, statuses: set<Status>)
    ensures Count(s + [x], owner, statuses) == Count(s, owner, statuses) + (if Counts(x, owner, statuses) then 1 else 0)
  {
    assert (s + [x])[..|s|] == s;
  }

  /** The positions of the counted documents, in collection order. */
  function Positions<D>(s: seq<Reviewed<D>>, owner: Id, statuses: set<Status>): (r: seq<nat>)
    ensures |r| == Count(s, owner, statuses)
    ensures forall k :: 0 <= k < |r| ==> r[k] < |s| && Counts(s[r[k]], owner, statuses)
    ensures forall i :: 0 <= i < |s| && Counts(s[i], owner, statuses) ==> i in r
    ensures forall k, l :: 0 <= k < l < |r| ==> r[k] < r[l]
  {
    if s == [] then []
    else
      var init := s[..|s| - 1];
      var r0 := Positions(init, owner, statuses);
      assert forall i :: 0 <= i < |init| ==> s[i] == init[i];
      if Counts(s[|s| - 1], owner, statuses) then r0 + [|s| - 1] else r0
  }

  /** Replacing one document changes a count by what the filter says of the old and the new one. */
  lemma {:induction false} CountUpdate<D>(s: seq<Reviewed<D>>, i: nat, x: Reviewed<D>, owner: Id, statuses: set<Status>)
    requires i < |s|
    ensures Count(s[i := x], owner, statuses) + (if Counts(s[i], owner, statuses) then 1 else 0) ==
            Count(s, owner, statuses) + (if Counts(x, owner, statuses) then 1 else 0)
  {
    var t := s[i := x];
    if i < |s| - 1 {
      assert t[..|t| - 1] == s[..|s| - 1][i := x];
      CountUpdate(s[..|s| - 1], i, x, owner, statuses);
    } else {
      assert t[..|t| - 1] == s[..|s| - 1];
    }
  }

  /** Removing one document takes one off a count exactly when the filter matched it. */
  lemma {:induction false} CountRemove<D>(s: seq<Reviewed<D>>, i: nat, owner: Id, statuses: set<Status>)
    requires i < |s|
    ensures Count(s[..i] + s[i + 1..], owner, statuses) + (if Counts(s[i], owner, statuses) then 1 else 0) ==
            Count(s, owner, statuses)
  {
    var t := s[..i] + s[i + 1..];
    if i < |s| - 1 {
      var init := s[..|s| - 1];
      assert t[..|t| - 1] == init[..i] + init[i + 1..];
      assert t[|t| - 1] == s[|s| - 1];
      CountRemove(init, i, owner, statuses);
    } else {
      assert t == s[..|s| - 1];
    }
  }

  // ---------------------------------------------------------------------
  // Lookups (`findOne`, `findOneAndUpdate`, `findOneAndDelete`)
  // ---------------------------------------------------------------------

  /** The position of the first document with the given id and, when `owner` is
      given, that owner (the filter `{_id, owner}`); none when nothing matches. */
  function Find<D>(s: seq<Reviewed<D>>, id: Id, owner: Option<Id>): (r: Option<nat>)
    ensures r.Some? ==> r.value < |s| && Matches(s[r.value], id, owner)
    ensures r.Some? ==> forall j :: 0 <= j < r.value ==> !Matches(s[j], id, owner)
    ensures r.None? ==> forall j :: 0 <= j < |s| ==> !Matches(s[j], id, owner)
  {
    if s == [] then None
    else if Matches(s[0], id, owner) then Some(0)
    else
      match Find(s[1..], id, owner)
      case None => None
      case Some(k) => Some(k + 1)
  }

  predicate Matches<D>(x: Reviewed<D>, id: Id, owner: Option<Id>) {
    x.id == id && (owner.None? || x.owner == owner.value)
  }

  /** `findOneAndDelete({_id, owner})` on a match takes the document out of its
      owner's counts and leaves every other user's counts alone. */
  lemma RemoveFound<D>(s: seq<Reviewed<D>>, id: Id, owner: Id, who: Id, statuses: set<Status>)
    requires Find(s, id, Some(owner)).Some?
    ensures var i := Find(s, id, Some(owner)).value;
      Count(s[..i] + s[i + 1..], owner, statuses) + (if s[i].review.status in statuses then 1 else 0) == Count(s, owner, statuses) &&
      (who != owner ==> Count(s[..i] + s[i + 1..], who, statuses) == Count(s, who, statuses))
  {
    var i := Find(s, id, Some(owner)).value;
    CountRemove(s, i, owner, statuses);
    CountRemove(s, i, who, statuses);
  }
}
