/** `GET /api/wellness-recommendations` (latest record) and `POST` (append a generated record). */
module WellnessRecommendationsRoute {
  import opened Wrappers
  import opened Store
  import opened WellnessRecommendationModel
  import opened UserModel
  import Query

  /** `WellnessRecommendation.findOne({ userId }).sort({ createdAt: -1 })`. */
  function Latest(docs: seq<RecommendationDoc>, userId: string): Option<RecommendationDoc> {
    Query.FindOneSorted(docs, OwnedBy(userId), CreatedAt())
  }

  /** `GET`: the caller's most recently created record, or `null`. */
  method Get(db: Database, userId: Option<string>, connected: bool) returns (reply: Reply<Option<RecommendationDoc>>)
    ensures !SignedIn(userId) ==> reply == Unauthorized()
    ensures SignedIn(userId) && !connected ==> reply == InternalError()
    ensures SignedIn(userId) && connected ==>
      && reply.Json?
      && (reply.body.None? <==> forall d :: d in db.recommendations ==> d.userId != userId.value)
      && (reply.body.Some? ==>
            && reply.body.value in db.recommendations && reply.body.value.userId == userId.value
            && forall d :: d in db.recommendations && d.userId == userId.value
                           ==> d.createdAt <= reply.body.value.createdAt)
  {
    if !SignedIn(userId) {
      return Unauthorized();
    }
    if !connected {
      return InternalError();
    }
    Query.FindOneSortedSpec(db.recommendations, OwnedBy(userId.value), CreatedAt());
    reply := Json(Latest(db.recommendations, userId.value));
  }

  /** `POST`: with a user profile, one new record owned by the caller is appended and none is deleted;
      `generated` is the opaque generator's result (`None` where it throws, giving a 500). */
  method Post(db: Database, userId: Option<string>, connected: bool, now: int, generated: Option<Recommendations>)
    returns (reply: Reply<RecommendationDoc>)
    requires db.Valid()
    modifies db
    ensures db.Valid()
    ensures unchanged(db`users, db`chats, db`checkIns, db`dietPlans)
    ensures !SignedIn(userId) ==> reply == Unauthorized() && unchanged(db)
    ensures SignedIn(userId) && !connected ==> reply == InternalError() && unchanged(db)
    ensures SignedIn(userId) && connected && !HasProfile(old(db.users), userId.value) ==>
      reply == ProfileNotFound() && unchanged(db)
    ensures SignedIn(userId) && connected && HasProfile(old(db.users), userId.value) ==>
      && (generated.None? ==> reply == InternalError() && unchanged(db))
      && (generated.Some? ==>
            && reply == Json(RecommendationDoc(old(db.nextId), userId.value, generated.value, now, now))
            && db.recommendations == old(db.recommendations) + [reply.body]
            && db.nextId == old(db.nextId) + 1 && old(db.Unused(reply.body.id)))
  {
    if !SignedIn(userId) {
      return Unauthorized();
    }
    if !connected {
      return InternalError();
    }
    if !HasProfile(db.users, userId.value) {
      return ProfileNotFound();
    }
    if generated.None? {
      return InternalError();
    }
    var id := db.NewId();
    var doc := RecommendationDoc(id, userId.value, generated.value, now, now);
    db.recommendations := db.recommendations + [doc];
    reply := Json(doc);
  }

  /** Appending a record owned by the caller grows the caller's history by exactly that record and
      leaves every other user's history as it was. */
  lemma HistoryGrowsByOne(docs: seq<RecommendationDoc>, doc: RecommendationDoc, other: string)
    requires other != doc.userId
    ensures Query.Filter(docs + [doc], OwnedBy(doc.userId)) == Query.Filter(docs, OwnedBy(doc.userId)) + [doc]
    ensures Query.Filter(docs + [doc], OwnedBy(other)) == Query.Filter(docs, OwnedBy(other))
  {
    Query.FilterAppend(docs, [doc], OwnedBy(doc.userId));
    Query.FilterAppend(docs, [doc], OwnedBy(other));
  }
}
