/** The SubscriptionRequest record (models/subscriptionRequest.js): a user's
    request for a paid plan. */
module SubscriptionRequestModel {
  import opened Common
  import opened Reviews

  /** The `plan` enum: only the paid plans can be requested. */
  datatype Plan = Premium | VIP

  function PlanName(p: Plan): string {
    match p
    case Premium => "Premium"
    case VIP => "VIP"
  }

  /** The required enum field: exactly the two plan names are accepted. */
  function ParsePlan(s: string): (p: Option<Plan>)
    ensures p.Some? <==> s == "Premium" || s == "VIP"
  {
    if s == "Premium" then Some(Premium)
    else if s == "VIP" then Some(VIP)
    else None
  }

  /** Plan names read back as themselves, and "Basic" is not one of them. */
  lemma PlanNameRoundTrip(p: Plan)
    ensures ParsePlan(PlanName(p)) == Some(p)
    ensures PlanName(p) != "Basic"
  {
  }

  datatype SubscriptionFields = SubscriptionFields(name: string, whatsapp: string, plan: Plan, notes: string)

  type SubscriptionRequest = Reviewed<SubscriptionFields>

  /** `SubscriptionRequest.create(...)`: fails validation unless the plan is one of
      the two names; otherwise stores the request pending, with no stamps, an empty
      note and both timestamps at `now`. */
  function Create(id: Id, user: Id, now: Time, name: string, whatsapp: string, plan: string, notes: string)
    : (r: Option<SubscriptionRequest>)
    ensures r.None? <==> ParsePlan(plan).None?
    ensures r.Some? ==> PlanName(r.value.details.plan) == plan
    ensures r.Some? ==> r.value.id == id && r.value.owner == user && r.value.review == Initial
    ensures r.Some? ==> r.value.createdAt == now && r.value.updatedAt == now
    ensures r.Some? ==> r.value.details == SubscriptionFields(name, whatsapp, r.value.details.plan, notes)
  {
    match ParsePlan(plan)
    case None => None
    case Some(p) => Some(Reviewed(id, user, now, now, Initial, SubscriptionFields(name, whatsapp, p, notes)))
  }
}
