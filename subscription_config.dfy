/** The SubscriptionConfig record (models/SubscriptionConfig.js): period
    lengths and per-plan listing limits, one document per unique key. */
module SubscriptionConfigModel {
  import opened Common

  datatype SubscriptionConfig = SubscriptionConfig(
    key: string, monthDays: int, yearDays: int, basicLimit: int, premiumLimit: int, vipLimit: int)

  /** A document created with no fields given. */
  const Defaults: SubscriptionConfig := SubscriptionConfig("sub-plans", 30, 365, 1, 2, 999)

  /** No two documents share a key (the unique index). */
  predicate UniqueKeys(cs: seq<SubscriptionConfig>) {
    forall i, j :: 0 <= i < j < |cs| ==> cs[i].key != cs[j].key
  }

  /** Inserting a document: the unique index refuses a key already present. */
  function Insert(cs: seq<SubscriptionConfig>, c: SubscriptionConfig): (r: Option<seq<SubscriptionConfig>>)
    ensures r.None? <==> exists i :: 0 <= i < |cs| && cs[i].key == c.key
    ensures r.Some? ==> r.value == cs + [c]
  {
    if exists i :: 0 <= i < |cs| && cs[i].key == c.key then None else Some(cs + [c])
  }

  /** The unique index holds after every accepted insertion. */
  lemma InsertKeepsUnique(cs: seq<SubscriptionConfig>, c: SubscriptionConfig)
    requires UniqueKeys(cs)
    requires Insert(cs, c).Some?
    ensures UniqueKeys(Insert(cs, c).value)
  {
    var r := Insert(cs, c).value;
    forall i, j | 0 <= i < j < |r|
      ensures r[i].key != r[j].key
    {
      if j == |cs| {
        assert r[i] == cs[i];
      }
    }
  }

  /** Inserting two default documents fails the second time: there is at most
      one configuration under the default key. */
  lemma SecondDefaultRefused()
    ensures Insert([Defaults], Defaults).None?
  {
    assert [Defaults][0].key == Defaults.key;
  }
}
