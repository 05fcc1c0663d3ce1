/** `GET /api/wellness` (the caller's check-ins, latest date first) and `POST /api/wellness`. */
module WellnessRoute {
  import opened Wrappers
  import opened Store
  import opened WellnessCheckInModel
  import Query

  /** The parsed request body of `POST`; `None` marks a missing value or one that does not cast. */
  datatype CheckInRequest = CheckInRequest(date: Option<int>, responses: Option<map<string, string>>)

  /** Some stored check-in already has this `(userId, date)` pair. */
  predicate PairStored(docs: seq<CheckInDoc>, userId: string, date: int) {
    exists k :: 0 <= k < |docs| && docs[k].userId == userId && docs[k].date == date
  }

  /** `WellnessCheckIn.find({ userId }).sort({ date: -1 })`. */
  function OwnCheckInsLatestFirst(docs: seq<CheckInDoc>, userId: string): seq<CheckInDoc> {
    Query.FindSorted(docs, OwnedBy(userId), Date())
  }

  /** `GET`: every check-in of the caller and no other, latest date first. */
  method Get(db: Database, userId: Option<string>, connected: bool) returns (reply: Reply<seq<CheckInDoc>>)
    ensures !SignedIn(userId) ==> reply == Unauthorized()
    ensures SignedIn(userId) && !connected ==> reply == InternalError()
    ensures SignedIn(userId) && connected ==>
      && reply.Json?
      && (forall d :: d in reply.body <==> d in db.checkIns && d.userId == userId.value)
      && (forall d :: multiset(reply.body)[d] == if d.userId == userId.value then multiset(db.checkIns)[d] else 0)
      && (forall i, j :: 0 <= i < j < |reply.body| ==> reply.body[i].date >= reply.body[j].date)
  {
    if !SignedIn(userId) {
      return Unauthorized();
    }
    if !connected {
      return InternalError();
    }
    Query.FindSortedSpec(db.checkIns, OwnedBy(userId.value), Date());
    reply := Json(OwnCheckInsLatestFirst(db.checkIns, userId.value));
  }

  /** `POST`: inserts the caller's check-in and returns it; a missing field, or a `(caller, date)` pair
      that is already stored, is a 500 that leaves the collection as it was. */
  method Post(db: Database, userId: Option<string>, body: Option<CheckInRequest>, connected: bool)
    returns (reply: Reply<CheckInDoc>)
    requires db.Valid()
    modifies db
    ensures db.Valid()
    ensures unchanged(db`users, db`chats, db`dietPlans, db`recommendations)
    ensures !SignedIn(userId) ==> reply == Unauthorized() && unchanged(db)
    ensures SignedIn(userId) && (body.None? || !connected) ==> reply == InternalError() && unchanged(db)
    ensures SignedIn(userId) && body.Some? && connected ==>
      var req := body.value;
      && (req.date.None? || req.responses.None? ==> reply == InternalError() && unchanged(db))
      && (req.date.Some? && PairStored(old(db.checkIns), userId.value, req.date.value) ==>
            reply == InternalError() && unchanged(db))
      && (reply.Json? ==>
            && reply.body == CheckInDoc(old(db.nextId), userId.value, req.date.value, req.responses.value)
            && db.checkIns == old(db.checkIns) + [reply.body]
            && db.nextId == old(db.nextId) + 1 && old(db.Unused(reply.body.id)))
      && (req.date.Some? && req.responses.Some? && !PairStored(old(db.checkIns), userId.value, req.date.value) ==>
            reply.Json?)
  {
    if !SignedIn(userId) {
      return Unauthorized();
    }
    if body.None? || !connected {
      return InternalError();
    }
    var made := NewCheckIn(db.nextId, userId.value, body.value.date, body.value.responses);
    if made.Failure? {
      return InternalError();
    }
    var inserted := Insert(db.checkIns, made.value);
    if inserted.Failure? {
      return InternalError();
    }
    var _ := db.NewId();
    db.checkIns := inserted.value;
    reply := Json(made.value);
  }
}
