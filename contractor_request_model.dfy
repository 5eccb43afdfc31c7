/** The ContractorRequest record (models/contractorRequestModel.js): a
    contractor's profile as submitted for review. */
module ContractorRequestModel {
  import opened Common
  import opened Reviews

  /** The `subscriptionTier` enum. */
  datatype Tier = Basic | Premium | VIP

  function TierName(t: Tier): string {
    match t
    case Basic => "Basic"
    case Premium => "Premium"
    case VIP => "VIP"
  }

  /** The enum validator: a tier name or nothing. */
  function ParseTier(s: string): (t: Option<Tier>)
    ensures t.Some? <==> s == "Basic" || s == "Premium" || s == "VIP"
  {
    if s == "Basic" then Some(Basic)
    else if s == "Premium" then Some(Premium)
    else if s == "VIP" then Some(VIP)
    else None
  }

  /** The tier names are told apart and read back as themselves. */
  lemma TierNameRoundTrip(t: Tier, u: Tier)
    ensures ParseTier(TierName(t)) == Some(t)
    ensures TierName(t) == TierName(u) ==> t == u
  {
  }

  datatype ContractorFields = ContractorFields(
    name: string, email: string, phone: string, region: string, bio: string,
    companyName: string, services: seq<string>, city: string, description: string,
    videoUrl: string, avatar: string, photos: seq<string>, subscriptionTier: Tier)

  type ContractorRequest = Reviewed<ContractorFields>

  /** What `ContractorRequest.create` is given by the profile handler. */
  datatype NewRequest = NewRequest(
    name: string, email: string, phone: string, region: string, bio: string,
    companyName: string, services: seq<string>, city: string, description: string,
    videoUrl: string, avatar: string, photos: seq<string>)

  /** `ContractorRequest.create(...)`: fails validation when the required company
      name is empty; otherwise stores the fields as given except the video URL,
      which the schema trims, starts pending with no stamps and an empty note,
      on the Basic tier, with both timestamps at `now`. */
  function Create(id: Id, user: Id, now: Time, n: NewRequest): (r: Option<ContractorRequest>)
    ensures r.None? <==> n.companyName == ""
    ensures r.Some? ==> r.value.id == id && r.value.owner == user
    ensures r.Some? ==> r.value.review == Initial && r.value.details.subscriptionTier == Basic
    ensures r.Some? ==> r.value.createdAt == now && r.value.updatedAt == now
    ensures r.Some? ==> r.value.details.videoUrl == Trim(n.videoUrl)
    ensures r.Some? ==> r.value.details.companyName == n.companyName && r.value.details.services == n.services
  {
    if n.companyName == "" then None
    else
      Some(Reviewed(id, user, now, now, Initial,
        ContractorFields(n.name, n.email, n.phone, n.region, n.bio, n.companyName, n.services,
          n.city, n.description, Trim(n.videoUrl), n.avatar, n.photos, Basic)))
  }
}
