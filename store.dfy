/** The database the routers read and write: the users and the three reviewed
    collections, as fields a handler reassigns. */
module Store {
  import opened Common
  import opened FarmModel
  import opened ContractorRequestModel
  import opened SubscriptionRequestModel

  /** The user fields the routers read and write; models/usermodels.js is not part
      of this model, so the fields are those the handlers use: the email and
      role, the two plan fields (`subscriptionTier`, the contractor-side `plan`)
      as stored strings ("" when unset), and the subscription's end. */
  datatype User = User(email: string, role: string, subscriptionTier: string, plan: string, subscriptionUntil: Option<Time>)

  class Db {
    var users: map<Id, User>
    var farms: seq<Farm>
    var contractorRequests: seq<ContractorRequest>
    var subscriptionRequests: seq<SubscriptionRequest>

    constructor (users0: map<Id, User>)
      ensures users == users0
      ensures farms == [] && contractorRequests == [] && subscriptionRequests == []
    {
      users := users0;
      farms := [];
      contractorRequests := [];
      subscriptionRequests := [];
    }
  }
}
