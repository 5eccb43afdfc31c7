/** utils/enforceExpiry.js: when a paid subscription has run out, the user
    goes back to the Basic plan and whatever they have waiting for review
    beyond the Basic allowance is rejected, newest first. */
module EnforceExpiry {
  import opened Common
  import opened Reviews
  import opened Sorting
  import opened Store

  /** The note written on every request the expiry rejects. */
  const ExpiryNote: string := "انتهت صلاحية الاشتراك"

  datatype Outcome =
    | NoUser      // no such user: nothing happens
    | Unchanged   // already Basic, no end date, or the end date lies ahead
    | Downgraded  // the subscription ran out: downgrade and reject the excess

  /** Which of the three paths a call takes. */
  function Decide(users: map<Id, User>, userId: Id, now: Time): (o: Outcome)
    ensures o == NoUser <==> userId !in users
    ensures o == Downgraded <==>
      userId in users && users[userId].subscriptionTier != "Basic" &&
      users[userId].subscriptionUntil.Some? && users[userId].subscriptionUntil.value <= now
  {
    if userId !in users then NoUser
    else
      var u := users[userId];
      if u.subscriptionTier == "Basic" then Unchanged
      else if u.subscriptionUntil.None? || u.subscriptionUntil.value > now then Unchanged
      else Downgraded
  }

  /** Back to Basic on both plan fields, with the end date cleared. */
  function Downgrade(u: User): (v: User)
    ensures v.subscriptionTier == "Basic" && v.plan == "Basic" && v.subscriptionUntil.None?
    ensures v.email == u.email && v.role == u.role
  {
    u.(subscriptionTier := "Basic", plan := "Basic", subscriptionUntil := None)
  }

  /** A downgraded user is left alone by every later call. */
  lemma DowngradeSettles(users: map<Id, User>, userId: Id, now: Time, later: Time)
    requires Decide(users, userId, now) == Downgraded
    ensures Decide(users[userId := Downgrade(users[userId])], userId, later) == Unchanged
  {
  }

  // ---------------------------------------------------------------------
  // The excess of pending requests
  // ---------------------------------------------------------------------

  /** The `updateOne` each excess request receives (the timestamps plugin also sets `updatedAt`). */
  function Expire<D>(x: Reviewed<D>, now: Time): (y: Reviewed<D>)
    ensures y.review.status == Rejected && y.review.rejectedAt == Some(now) && y.review.reviewNote == ExpiryNote
    ensures y.id == x.id && y.owner == x.owner && y.createdAt == x.createdAt && y.details == x.details
  {
    x.(review := Reject(x.review, now, ExpiryNote), updatedAt := now)
  }

  /** The creation time of the document at a position (0 past the end). */
  function Created<D>(s: seq<Reviewed<D>>, i: nat): Time {
    if i < |s| then s[i].createdAt else 0
  }

  /** `.sort({ createdAt: 1 })`, as an order on positions. */
  function ByCreated<D>(s: seq<Reviewed<D>>): (nat, nat) -> bool {
    (i: nat, j: nat) => Created(s, i) <= Created(s, j)
  }

  lemma ByCreatedTotal<D>(s: seq<Reviewed<D>>)
    ensures TotalPreorder(ByCreated(s))
  {
  }

  /** `Math.max(0, limit - approved)`: how many pending requests the allowance still admits. */
  function Room<D>(s: seq<Reviewed<D>>, owner: Id, limit: nat): nat {
    Max0(limit - Count(s, owner, {Approved}))
  }

  /** The owner's pending requests, oldest first. */
  function PendingOldestFirst<D>(s: seq<Reviewed<D>>, owner: Id): seq<nat> {
    Sort(Positions(s, owner, {Pending}), ByCreated(s))
  }

  /** `pending.slice(room)`: the pending requests beyond the allowance. */
  function Overflow<D>(s: seq<Reviewed<D>>, owner: Id, limit: nat): seq<nat> {
    var p := PendingOldestFirst(s, owner);
    p[Min(Room(s, owner, limit), |p|)..]
  }

  /** The collection once every request of the overflow has been rejected. */
  function RejectOverflow<D>(s: seq<Reviewed<D>>, owner: Id, limit: nat, now: Time): (t: seq<Reviewed<D>>)
    ensures |t| == |s|
  {
    var o := Overflow(s, owner, limit);
    seq(|s|, i requires 0 <= i < |s| => if i in o then Expire(s[i], now) else s[i])
  }

  /** The loop `for (const f of excess) await updateOne({_id: f._id}, ...)`. */
  method RejectEach<D>(s: seq<Reviewed<D>>, excess: seq<nat>, now: Time) returns (t: seq<Reviewed<D>>)
    requires forall k :: 0 <= k < |excess| ==> excess[k] < |s|
    ensures |t| == |s|
    ensures forall i :: 0 <= i < |s| ==> t[i] == if i in excess then Expire(s[i], now) else s[i]
  {
    t := s;
    for k := 0 to |excess|
      invariant |t| == |s|
      invariant forall i :: 0 <= i < |s| ==> t[i] == if i in excess[..k] then Expire(s[i], now) else s[i]
    {
      var i := excess[k];
      t := t[i := Expire(t[i], now)];
      assert excess[..k + 1] == excess[..k] + [i];
    }
    assert excess[..|excess|] == excess;
  }

  /** One collection's half of the expiry: count, sort, slice, reject. */
  method ExpireCollection<D>(s: seq<Reviewed<D>>, owner: Id, limit: nat, now: Time) returns (t: seq<Reviewed<D>>)
    ensures t == RejectOverflow(s, owner, limit, now)
  {
    var room := Max0(limit - Count(s, owner, {Approved}));
    var pending := Sort(Positions(s, owner, {Pending}), ByCreated(s));
    var excess := pending[Min(room, |pending|)..];
    assert excess == Overflow(s, owner, limit);
    OverflowFacts(s, owner, limit);
    assert forall k :: 0 <= k < |excess| ==> excess[k] in excess;
    t := RejectEach(s, excess, now);
  }

  /** `enforceExpiry(userId)`. The Basic allowances of farms and of contractor
      requests (`LIMITS.Basic.farms`, `LIMITS.Basic.contractors`, 1 each by the
      comments beside them) come from utils/limits.js, which is not part of this
      model, and are parameters. */
  method EnforceExpiry(db: Db, userId: Id, now: Time, farmLimit: nat, contractorLimit: nat) returns (outcome: Outcome)
    modifies db`users, db`farms, db`contractorRequests
    ensures outcome == Decide(old(db.users), userId, now)
    ensures outcome != Downgraded ==> unchanged(db)
    ensures outcome == Downgraded ==>
      db.users == old(db.users)[userId := Downgrade(old(db.users)[userId])] &&
      db.farms == RejectOverflow(old(db.farms), userId, farmLimit, now) &&
      db.contractorRequests == RejectOverflow(old(db.contractorRequests), userId, contractorLimit, now)
  {
    if userId !in db.users {
      return NoUser;
    }
    var user := db.users[userId];
    if user.subscriptionTier == "Basic" {
      return Unchanged;
    }
    if user.subscriptionUntil.None? || user.subscriptionUntil.value > now {
      return Unchanged;
    }
    db.users := db.users[userId := Downgrade(user)];
    db.farms := ExpireCollection(db.farms, userId, farmLimit, now);
    db.contractorRequests := ExpireCollection(db.contractorRequests, userId, contractorLimit, now);
    outcome := Downgraded;
  }

  // ---------------------------------------------------------------------
  // What the rejection achieves
  // ---------------------------------------------------------------------

  lemma IncreasingDistinct(r: seq<nat>)
    requires forall k, l :: 0 <= k < l < |r| ==> r[k] < r[l]
    ensures Distinct(r)
  {
  }

  /** The overflow is a duplicate-free list of the owner's pending positions, as
      long as the number of them the allowance does not admit. */
  lemma {:induction false} OverflowFacts<D>(s: seq<Reviewed<D>>, owner: Id, limit: nat)
    ensures Distinct(Overflow(s, owner, limit))
    ensures forall k :: k in Overflow(s, owner, limit) ==> k < |s| && Counts(s[k], owner, {Pending})
    ensures |Overflow(s, owner, limit)| ==
      Count(s, owner, {Pending}) - Min(Room(s, owner, limit), Count(s, owner, {Pending}))
  {
    var pos := Positions(s, owner, {Pending});
    var p := PendingOldestFirst(s, owner);
    IncreasingDistinct(pos);
    DistinctPermutation(pos, p);
    assert |p| == |pos| by {
      assert |multiset(p)| == |multiset(pos)|;
    }
    forall k | k in Overflow(s, owner, limit)
      ensures k < |s| && Counts(s[k], owner, {Pending})
    {
      assert k in p;
      assert k in multiset(p);
      assert k in pos;
    }
  }

  /** Only the owner's pending requests change, and each that does is rejected
      with the expiry note at `now`. */
  lemma RejectOverflowChanges<D>(s: seq<Reviewed<D>>, owner: Id, limit: nat, now: Time)
    ensures forall i :: 0 <= i < |s| ==>
      RejectOverflow(s, owner, limit, now)[i] == s[i] ||
      (Counts(s[i], owner, {Pending}) && RejectOverflow(s, owner, limit, now)[i] == Expire(s[i], now))
  {
    OverflowFacts(s, owner, limit);
  }

  /** The rejection leaves every other user's counts and the owner's count of
      approved requests as they were. */
  lemma {:induction false} RejectOverflowKeepsCounts<D>(s: seq<Reviewed<D>>, owner: Id, limit: nat, now: Time, who: Id, statuses: set<Status>)
    requires who != owner || statuses == {Approved}
    ensures Count(RejectOverflow(s, owner, limit, now), who, statuses) == Count(s, who, statuses)
  {
    var t := RejectOverflow(s, owner, limit, now);
    RejectOverflowChanges(s, owner, limit, now);
    assert Matching(t, who, statuses) == Matching(s, who, statuses) by {
      forall i | 0 <= i < |s|
        ensures Counts(t[i], who, statuses) == Counts(s[i], who, statuses)
      {
      }
    }
    CountIsCard(t, who, statuses);
    CountIsCard(s, who, statuses);
  }

  /** Afterwards the owner has exactly as many pending requests as the allowance
      admits beside the approved ones, or all of them if there are fewer. */
  lemma {:induction false} RejectOverflowPendingLeft<D>(s: seq<Reviewed<D>>, owner: Id, limit: nat, now: Time)
    ensures Count(RejectOverflow(s, owner, limit, now), owner, {Pending}) ==
      Min(Room(s, owner, limit), Count(s, owner, {Pending}))
  {
    var t := RejectOverflow(s, owner, limit, now);
    var o := Overflow(s, owner, limit);
    OverflowFacts(s, owner, limit);
    var A := Matching(s, owner, {Pending});
    var B := set k | k in o;
    assert Matching(t, owner, {Pending}) == A - B;
    assert B <= A;
    DistinctCard(o);
    assert A == (A - B) + B;
    CountIsCard(t, owner, {Pending});
    CountIsCard(s, owner, {Pending});
  }

  /** The allowance is restored: an owner who had no more approved requests than
      the allowance afterwards has no more approved and pending requests together
      than the allowance. */
  lemma RejectOverflowWithinLimit<D>(s: seq<Reviewed<D>>, owner: Id, limit: nat, now: Time)
    requires Count(s, owner, {Approved}) <= limit
    ensures Count(RejectOverflow(s, owner, limit, now), owner, {Approved}) +
            Count(RejectOverflow(s, owner, limit, now), owner, {Pending}) <= limit
  {
    RejectOverflowKeepsCounts(s, owner, limit, now, owner, {Approved});
    RejectOverflowPendingLeft(s, owner, limit, now);
  }

  /** In a list cut at `m`, an element found only before the cut and one found
      after it sit at positions on either side of the cut. */
  lemma SidesOfCut(p: seq<nat>, m: nat, x: nat, y: nat) returns (a: nat, b: nat)
    requires m <= |p| && x in p && x !in p[m..] && y in p[m..]
    ensures a < m <= b < |p| && p[a] == x && p[b] == y
  {
    a :| 0 <= a < |p| && p[a] == x;
    var c :| 0 <= c < |p[m..]| && p[m..][c] == y;
    b := m + c;
  }

  /** The oldest requests are the ones kept: no request left pending was created
      after one the expiry rejected. */
  lemma {:induction false} RejectOverflowKeepsOldest<D>(s: seq<Reviewed<D>>, owner: Id, limit: nat, now: Time, i: nat, j: nat)
    requires i < |s| && j < |s|
    requires Counts(RejectOverflow(s, owner, limit, now)[i], owner, {Pending})
    requires Counts(s[j], owner, {Pending}) && RejectOverflow(s, owner, limit, now)[j].review.status == Rejected
    ensures s[i].createdAt <= s[j].createdAt
  {
    var p := PendingOldestFirst(s, owner);
    var pos := Positions(s, owner, {Pending});
    var m := Min(Room(s, owner, limit), |p|);
    var o := Overflow(s, owner, limit);
    assert o == p[m..];
    assert j in o;
    assert i !in o;
    assert i in p && j in p by {
      assert i in multiset(pos) && j in multiset(pos);
    }
    var a, b := SidesOfCut(p, m, i, j);
    ByCreatedTotal(s);
    SortSorted(pos, ByCreated(s));
    assert ByCreated(s)(p[a], p[b]);
  }

  /** Running the rejection again at any later time changes nothing. */
  lemma {:induction false} RejectOverflowIdempotent<D>(s: seq<Reviewed<D>>, owner: Id, limit: nat, now: Time, later: Time)
    ensures RejectOverflow(RejectOverflow(s, owner, limit, now), owner, limit, later) == RejectOverflow(s, owner, limit, now)
  {
    var t := RejectOverflow(s, owner, limit, now);
    RejectOverflowKeepsCounts(s, owner, limit, now, owner, {Approved});
    RejectOverflowPendingLeft(s, owner, limit, now);
    var p := PendingOldestFirst(t, owner);
    assert |multiset(p)| == |multiset(Positions(t, owner, {Pending}))|;
    assert Overflow(t, owner, limit) == [];
  }
}
