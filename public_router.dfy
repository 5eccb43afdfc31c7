/** routers/public.js: the "top farms" query with its fallback, the tier-weighted
    order of the public contractor list, and the admission of a contractor rating. */
module PublicRouter {
  import opened Common
  import opened Reviews
  import opened Sorting
  import FarmModel
  import CR = ContractorRequestModel

  // ---------------------------------------------------------------------
  // getTopFarms
  // ---------------------------------------------------------------------

  /** `.sort({ views: -1, updatedAt: -1, createdAt: -1 })`: `a` may come before `b`. */
  predicate TopFirst(a: FarmModel.Farm, b: FarmModel.Farm) {
    a.details.views > b.details.views ||
    (a.details.views == b.details.views &&
      (a.updatedAt > b.updatedAt || (a.updatedAt == b.updatedAt && a.createdAt >= b.createdAt)))
  }

  lemma TopFirstPreorder()
    ensures TotalPreorder(TopFirst)
  {
  }

  /** The query `{ kind, status?, _id: { $ne: exclude }? }`, in stored order. */
  function Candidates(farms: seq<FarmModel.Farm>, kind: FarmModel.Kind, exclude: Option<Id>, approvedOnly: bool): seq<FarmModel.Farm> {
    if farms == [] then []
    else
      var f := farms[0];
      var rest := Candidates(farms[1..], kind, exclude, approvedOnly);
      if Selected(f, kind, exclude, approvedOnly) then [f] + rest else rest
  }

  predicate Selected(f: FarmModel.Farm, kind: FarmModel.Kind, exclude: Option<Id>, approvedOnly: bool) {
    f.details.kind == kind && (exclude.Some? ==> f.id != exclude.value) && (approvedOnly ==> f.review.status == Approved)
  }

  /** The query keeps exactly the selected farms. */
  lemma {:induction false} CandidatesSpec(farms: seq<FarmModel.Farm>, kind: FarmModel.Kind, exclude: Option<Id>, approvedOnly: bool)
    ensures forall f :: f in Candidates(farms, kind, exclude, approvedOnly) <==> f in farms && Selected(f, kind, exclude, approvedOnly)
  {
    if farms != [] {
      CandidatesSpec(farms[1..], kind, exclude, approvedOnly);
      assert farms == [farms[0]] + farms[1..];
    }
  }

  /** `.limit(n)`: the first `n` rows; as in MongoDB, a limit of 0 means no limit. */
  function Limit<T>(s: seq<T>, n: nat): (r: seq<T>)
    ensures r <= s
    ensures n > 0 ==> |r| == Min(|s|, n)
    ensures n == 0 ==> r == s
  {
    if n == 0 || |s| <= n then s else s[..n]
  }

  /** One query: select, order, limit. */
  function TopQuery(farms: seq<FarmModel.Farm>, kind: FarmModel.Kind, exclude: Option<Id>, approvedOnly: bool, limit: nat): seq<FarmModel.Farm> {
    Limit(Sort(Candidates(farms, kind, exclude, approvedOnly), TopFirst), limit)
  }

  /** `getTopFarms(kindWanted, excludeId, limit)`: approved farms first; the query
      without the status condition runs only when that finds nothing. */
  function TopFarms(farms: seq<FarmModel.Farm>, kind: FarmModel.Kind, exclude: Option<Id>, limit: nat): seq<FarmModel.Farm> {
    var rows := TopQuery(farms, kind, exclude, true, limit);
    if rows == [] then TopQuery(farms, kind, exclude, false, limit) else rows
  }

  /** The first rows of a sorted list rank before everything the limit cut off. */
  lemma {:induction false} LimitKeepsTop(sorted: seq<FarmModel.Farm>, limit: nat)
    requires SortedBy(sorted, TopFirst)
    ensures var r := Limit(sorted, limit);
      multiset(r) <= multiset(sorted) &&
      forall f, g :: f in sorted && multiset(r)[f] < multiset(sorted)[f] && g in r ==> TopFirst(g, f)
  {
    var r := Limit(sorted, limit);
    var rest := sorted[|r|..];
    assert sorted == r + rest;
    forall f, g | f in sorted && multiset(r)[f] < multiset(sorted)[f] && g in r
      ensures TopFirst(g, f)
    {
      assert f in multiset(rest);
      assert f in rest;
      var k :| 0 <= k < |rest| && rest[k] == f;
      var j :| 0 <= j < |r| && r[j] == g;
      assert sorted[j] == g && sorted[|r| + k] == f;
    }
  }

  /** One query returns the top `limit` selected farms (all of them for a limit
      of 0): as many rows as that, each a selected farm taken no more often than
      it is stored, in order, and each ranked before every selected farm left out. */
  lemma {:induction false} TopQuerySpec(farms: seq<FarmModel.Farm>, kind: FarmModel.Kind, exclude: Option<Id>, approvedOnly: bool, limit: nat)
    ensures var r := TopQuery(farms, kind, exclude, approvedOnly, limit);
      var c := Candidates(farms, kind, exclude, approvedOnly);
      (forall f :: f in r ==> f in farms && Selected(f, kind, exclude, approvedOnly)) &&
      SortedBy(r, TopFirst) &&
      (limit > 0 ==> |r| == Min(|c|, limit)) &&
      (limit == 0 ==> |r| == |c|) &&
      multiset(r) <= multiset(c) &&
      (forall f, g :: f in c && multiset(r)[f] < multiset(c)[f] && g in r ==> TopFirst(g, f)) &&
      (r == [] <==> forall f :: f in farms ==> !Selected(f, kind, exclude, approvedOnly))
  {
    var c := Candidates(farms, kind, exclude, approvedOnly);
    var sorted := Sort(c, TopFirst);
    var r := Limit(sorted, limit);
    CandidatesSpec(farms, kind, exclude, approvedOnly);
    TopFirstPreorder();
    SortSorted(c, TopFirst);
    LimitKeepsTop(sorted, limit);
    assert multiset(sorted) == multiset(c);
    assert |sorted| == |c| by {
      assert |multiset(sorted)| == |multiset(c)|;
    }
    forall f | f in r
      ensures f in c
    {
      assert f in multiset(sorted);
    }
    if r != [] {
      assert r[0] in c;
    }
  }

  /** `getTopFarms` returns the top `limit` farms of the wanted kind, other than
      the excluded one: ranked among the approved ones when any qualifies, and
      among all of them otherwise. The rows are as many as the limit allows, in
      views/updatedAt/createdAt order, each ranked before every qualifying farm
      left out, and the result is empty only when no farm of that kind other
      than the excluded one exists at all. */
  lemma TopFarmsSpec(farms: seq<FarmModel.Farm>, kind: FarmModel.Kind, exclude: Option<Id>, limit: nat)
    ensures var r := TopFarms(farms, kind, exclude, limit);
      var approved := Candidates(farms, kind, exclude, true);
      var c := if approved != [] then approved else Candidates(farms, kind, exclude, false);
      (limit > 0 ==> |r| == Min(|c|, limit)) &&
      (limit == 0 ==> |r| == |c|) &&
      multiset(r) <= multiset(c) &&
      (forall f, g :: f in c && multiset(r)[f] < multiset(c)[f] && g in r ==> TopFirst(g, f)) &&
      (forall f :: f in r ==> f in farms && f.details.kind == kind && (exclude.Some? ==> f.id != exclude.value)) &&
      SortedBy(r, TopFirst) &&
      ((exists f :: f in farms && Selected(f, kind, exclude, true)) ==> forall f :: f in r ==> f.review.status == Approved) &&
      (r == [] <==> forall f :: f in farms ==> !Selected(f, kind, exclude, false))
  {
    TopQuerySpec(farms, kind, exclude, true, limit);
    TopQuerySpec(farms, kind, exclude, false, limit);
    var primary := TopQuery(farms, kind, exclude, true, limit);
    var approved := Candidates(farms, kind, exclude, true);
    assert primary == [] <==> approved == [];
    if primary != [] {
      var f := primary[0];
      assert f in primary;
    }
  }

  // ---------------------------------------------------------------------
  // GET /contractors
  // ---------------------------------------------------------------------

  /** `weight(t || 'Basic')`: VIP first, then Premium, then everything else. */
  function Weight(tier: string): (w: nat)
    ensures 1 <= w <= 3
    ensures w == 3 <==> tier == "VIP"
    ensures w == 2 <==> tier == "Premium"
  {
    var t := if tier == "" then "Basic" else tier;
    if t == "VIP" then 3 else if t == "Premium" then 2 else 1
  }

  /** A missing tier weighs what Basic weighs, and so does any unknown one. */
  lemma MissingTierIsBasic(tier: string)
    requires tier != "VIP" && tier != "Premium"
    ensures Weight(tier) == Weight("") == Weight("Basic") == 1
  {
  }

  function ContractorWeight(c: CR.ContractorRequest): nat {
    Weight(CR.TierName(c.details.subscriptionTier))
  }

  /** `(a, b) => weight(b) - weight(a)`: `a` may come before `b`. */
  predicate HeavierFirst(a: CR.ContractorRequest, b: CR.ContractorRequest) {
    ContractorWeight(a) >= ContractorWeight(b)
  }

  /** `find({ status: 'approved' })`, in the order the query returns. */
  function ApprovedOnly(rows: seq<CR.ContractorRequest>): seq<CR.ContractorRequest> {
    if rows == [] then []
    else (if rows[0].review.status == Approved then [rows[0]] else []) + ApprovedOnly(rows[1..])
  }

  /** The public list: the approved requests, stably sorted heaviest first. */
  function PublicContractors(rows: seq<CR.ContractorRequest>): seq<CR.ContractorRequest> {
    Sort(ApprovedOnly(rows), HeavierFirst)
  }

  lemma {:induction false} ApprovedOnlySpec(rows: seq<CR.ContractorRequest>)
    ensures forall c :: c in ApprovedOnly(rows) <==> c in rows && c.review.status == Approved
    ensures forall c :: c in ApprovedOnly(rows) ==> multiset(ApprovedOnly(rows))[c] == multiset(rows)[c]
  {
    if rows != [] {
      ApprovedOnlySpec(rows[1..]);
      assert rows == [rows[0]] + rows[1..];
    }
  }

  /** The list shows every approved request as often as the query returned it and
      nothing else, with tier weights never increasing down the list. */
  lemma PublicContractorsSpec(rows: seq<CR.ContractorRequest>)
    ensures var r := PublicContractors(rows);
      multiset(r) == multiset(ApprovedOnly(rows)) &&
      (forall c :: c in r <==> c in rows && c.review.status == Approved) &&
      (forall i, j :: 0 <= i < j < |r| ==> ContractorWeight(r[i]) >= ContractorWeight(r[j]))
  {
    var a := ApprovedOnly(rows);
    ApprovedOnlySpec(rows);
    SortSorted(a, HeavierFirst);
    var r := PublicContractors(rows);
    forall c
      ensures c in r <==> c in a
    {
      assert c in r <==> c in multiset(r);
      assert c in a <==> c in multiset(a);
    }
  }

  // ---------------------------------------------------------------------
  // POST /contractor/:id/rate
  // ---------------------------------------------------------------------

  /** One stored rating: the rater (none when anonymous), the value and the client. */
  datatype RatingEntry = RatingEntry(user: Option<Id>, value: real, ip: string, ua: string)

  /** The rating fields of a contractor document; absent ones read as empty and 0. */
  datatype RatingRecord = RatingRecord(ratings: seq<RatingEntry>, ratingCount: nat)

  /** `String(x).slice(0, n)`. */
  function Slice(s: string, n: nat): (r: string)
    ensures r <= s
    ensures |r| == Min(|s|, n)
  {
    if |s| <= n then s else s[..n]
  }

  /** `Number(value)` is finite and within [1, 5]; `None` stands for a value that is
      not a finite number. */
  predicate ValidRating(v: Option<real>) {
    v.Some? && 1.0 <= v.value <= 5.0
  }

  /** Some stored rating carries this rater. */
  predicate RatedBy(rec: RatingRecord, user: Id) {
    exists k :: 0 <= k < |rec.ratings| && rec.ratings[k].user == Some(user)
  }

  /** The client address: the forwarding header, else the socket's address, else "". */
  function ClientIp(forwardedFor: string, remoteAddress: string): string {
    if forwardedFor != "" then forwardedFor else remoteAddress
  }

  /** The push and the count update of an accepted rating. */
  function AddRating(rec: RatingRecord, v: real, user: Option<Id>, ip: string, ua: string): (rec': RatingRecord)
    ensures rec'.ratingCount == rec.ratingCount + 1
    ensures |rec'.ratings| == |rec.ratings| + 1 && rec.ratings <= rec'.ratings
    ensures var e := rec'.ratings[|rec.ratings|];
      e.user == user && e.value == v && |e.ip| <= 100 && |e.ua| <= 200 && e.ip <= ip && e.ua <= ua
  {
    RatingRecord(rec.ratings + [RatingEntry(user, v, Slice(ip, 100), Slice(ua, 200))], rec.ratingCount + 1)
  }

  /** A rater who has rated once is seen by the duplicate check afterwards. */
  lemma AddedRaterIsRated(rec: RatingRecord, v: real, user: Id, ip: string, ua: string)
    ensures RatedBy(AddRating(rec, v, Some(user), ip, ua), user)
  {
    var rec' := AddRating(rec, v, Some(user), ip, ua);
    assert rec'.ratings[|rec.ratings|].user == Some(user);
  }

  /** The rating fields of every contractor document, by document id. */
  class RatingBoard {
    var records: map<Id, RatingRecord>

    constructor ()
      ensures records == map[]
    {
      records := map[];
    }

    /** `c.ratings || []` and `c.ratingCount || 0`. */
    function Of(id: Id): RatingRecord
      reads this
    {
      if id in records then records[id] else RatingRecord([], 0)
    }

    /** `POST /contractor/:id/rate`. The rater is the request's logged-in user, if any. */
    method Rate(contractors: seq<CR.ContractorRequest>, contractorId: Id, value: Option<real>, user: Option<Id>,
                forwardedFor: string, remoteAddress: string, userAgent: string) returns (reply: Reply)
      modifies this
      ensures reply in {Ok, BadRequest, NotFound, Conflict}
      ensures reply == BadRequest <==> !ValidRating(value)
      ensures reply == NotFound <==> ValidRating(value) && Find(contractors, contractorId, None).None?
      ensures reply == Conflict <==>
        ValidRating(value) && Find(contractors, contractorId, None).Some? && user.Some? && RatedBy(old(Of(contractorId)), user.value)
      ensures reply != Ok ==> records == old(records)
      ensures reply == Ok ==>
        records == old(records)[contractorId := AddRating(old(Of(contractorId)), value.value, user, ClientIp(forwardedFor, remoteAddress), userAgent)]
    {
      if !ValidRating(value) {
        return BadRequest;
      }
      if Find(contractors, contractorId, None).None? {
        return NotFound;
      }
      var rec := Of(contractorId);
      if user.Some? && RatedBy(rec, user.value) {
        return Conflict;
      }
      records := records[contractorId := AddRating(rec, value.value, user, ClientIp(forwardedFor, remoteAddress), userAgent)];
      reply := Ok;
    }
  }
}
