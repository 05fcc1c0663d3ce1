/**
 * The document store the route handlers share: one sequence per collection, in insertion order, and a
 * counter standing for the generation of fresh document ids.
 */
module Store {
  import opened Wrappers
  import UserModel
  import ChatModel
  import WellnessCheckInModel
  import DietPlanModel
  import WellnessRecommendationModel

  /** A route's response: a JSON body, or a status code with a plain-text message. */
  datatype Reply<T> = Json(body: T) | Status(code: int, message: string)

  function Unauthorized<T>(): Reply<T> { Status(401, "Unauthorized") }
  function InternalError<T>(): Reply<T> { Status(500, "Internal Error") }
  function ProfileNotFound<T>(): Reply<T> { Status(404, "User profile not found") }

  /** `auth()` yields a user id, and `if (!userId)` also turns away an empty one: a missing or falsy id
      is refused, any other id is let through. */
  function SignedIn(userId: Option<string>): (r: bool)
    ensures userId.None? || userId == Some("") ==> !r
    ensures r ==> userId.Some? && |userId.value| > 0
    ensures userId.Some? && |userId.value| > 0 ==> r
  {
    userId.Some? && userId.value != ""
  }

  class Database {
    var users: seq<UserModel.UserDoc>
    var chats: seq<ChatModel.StoredChat>
    var checkIns: seq<WellnessCheckInModel.CheckInDoc>
    var dietPlans: seq<DietPlanModel.DietPlanDoc>
    var recommendations: seq<WellnessRecommendationModel.RecommendationDoc>
    var nextId: nat

    /** The unique indexes of the schemas hold, and every stored document carries an id issued before. */
    ghost predicate Valid()
      reads this
    {
      UserModel.UniqueUserIds(users) && WellnessCheckInModel.UniqueUserDate(checkIns) && IdsIssued()
    }

    /** Every id in the store was handed out before `nextId`. */
    ghost predicate IdsIssued()
      reads this
    {
      && (forall u :: u in users ==> u.id < nextId)
      && (forall ch :: ch in chats ==> ch.id < nextId)
      && (forall d :: d in checkIns ==> d.id < nextId)
      && (forall d :: d in dietPlans ==> d.id < nextId)
      && (forall d :: d in recommendations ==> d.id < nextId)
    }

    /** No stored document of any collection carries `id`. */
    ghost predicate Unused(id: nat)
      reads this
    {
      && (forall u :: u in users ==> u.id != id)
      && (forall ch :: ch in chats ==> ch.id != id)
      && (forall d :: d in checkIns ==> d.id != id)
      && (forall d :: d in dietPlans ==> d.id != id)
      && (forall d :: d in recommendations ==> d.id != id)
    }

    constructor ()
      ensures Valid()
      ensures users == [] && chats == [] && checkIns == [] && dietPlans == [] && recommendations == []
      ensures nextId == 0
    {
      users, chats, checkIns, dietPlans, recommendations := [], [], [], [], [];
      nextId := 0;
    }

    /** A fresh document id: no stored document carries it, and the store stays valid. */
    method NewId() returns (id: nat)
      requires Valid()
      modifies this`nextId
      ensures Valid()
      ensures Unused(id)
      ensures id == old(nextId) && nextId == old(nextId) + 1
    {
      id := nextId;
      nextId := nextId + 1;
    }
  }
}
