/** `GET /api/user` (get-or-create) and `PUT /api/user` (profile update without upsert). */
module UserRoute {
  import opened Wrappers
  import opened Store
  import opened UserModel
  import Query

  /** The `bmi` object the dashboard sends. */
  datatype BmiRecord = BmiRecord(value: real, category: string, lastCalculated: int)

  /** The parsed request body of `PUT`; `None` marks a field that is absent (undefined) or null. */
  datatype UpdateBody = UpdateBody(
    weight: Option<real>,
    height: Option<real>,
    age: Option<real>,
    gender: Option<string>,
    foodPreference: Option<string>,
    bmi: Option<BmiRecord>)

  /** The `$set` document: a replacement of the whole `profile`, and the separate `profile.bmi` path. */
  datatype UpdateDoc = UpdateDoc(profile: Option<Profile>, profileBmi: Option<BmiRecord>)

  /** JavaScript truthiness of a number (`0` is falsy) and of a string (`""` is falsy). */
  predicate TruthyNumber(n: Option<real>) { n.Some? && n.value != 0.0 }
  predicate TruthyString(s: Option<string>) { s.Some? && s.value != "" }

  /** The replacement profile: the five body fields as they are, absent ones undefined. */
  function BodyProfile(body: UpdateBody): Profile {
    Profile(body.weight, body.height, body.age, body.gender, body.foodPreference)
  }

  predicate AnyProfileField(body: UpdateBody) {
    TruthyNumber(body.weight) || TruthyNumber(body.height) || TruthyNumber(body.age)
    || TruthyString(body.gender) || TruthyString(body.foodPreference)
  }

  /** Builds `updateData`: the profile is replaced, with all five paths and unsupplied ones undefined,
      exactly when one of the five is truthy; `profile.bmi` is set exactly when `bmi` is given. */
  method BuildUpdate(body: UpdateBody) returns (update: UpdateDoc)
    ensures update.profile.Some? <==> AnyProfileField(body)
    ensures update.profile.Some? ==> update.profile.value == BodyProfile(body)
    ensures update.profileBmi == body.bmi
  {
    update := UpdateDoc(None, None);
    if TruthyNumber(body.weight) || TruthyNumber(body.height) || TruthyNumber(body.age)
       || TruthyString(body.gender) || TruthyString(body.foodPreference)
    {
      update := update.(profile := Some(BodyProfile(body)));
    }
    if body.bmi.Some? {
      update := update.(profileBmi := body.bmi);
    }
  }

  /** A body whose only profile field is a zero weight changes no profile. */
  method ZeroWeightOnly() returns (update: UpdateDoc)
    ensures update.profile.None? && update.profileBmi.None?
  {
    update := BuildUpdate(UpdateBody(Some(0.0), None, None, None, None, None));
  }

  /** `GET`: the caller's user document, created with the schema defaults when there is none yet. */
  method Get(db: Database, userId: Option<string>, connected: bool, now: int) returns (reply: Reply<UserDoc>)
    requires db.Valid()
    modifies db
    ensures db.Valid()
    ensures !SignedIn(userId) ==> reply == Unauthorized() && unchanged(db)
    ensures SignedIn(userId) && !connected ==> reply == InternalError() && unchanged(db)
    ensures SignedIn(userId) && connected ==>
      var existing := Query.Find(old(db.users), HasUserId(userId.value));
      && unchanged(db`chats, db`checkIns, db`dietPlans, db`recommendations)
      && reply.Json? && reply.body.userId == userId.value && reply.body in db.users
      && (existing.Some? ==> reply.body == existing.value && db.users == old(db.users) && db.nextId == old(db.nextId))
      && (existing.None? ==>
            && reply.body == NewUser(old(db.nextId), userId.value, now) && db.users == old(db.users) + [reply.body]
            && old(db.Unused(reply.body.id)))
  {
    if !SignedIn(userId) {
      return Unauthorized();
    }
    if !connected {
      return InternalError();
    }
    var uid := userId.value;
    var found := Query.Find(db.users, HasUserId(uid));
    if found.Some? {
      var k := Query.FindIndex(db.users, HasUserId(uid)).value;
      assert db.users[k] in db.users;
      return Json(found.value);
    }
    var id := db.NewId();
    var user := NewUser(id, uid, now);
    assert forall i :: 0 <= i < |db.users| ==> db.users[i].userId != uid;
    db.users := db.users + [user];
    reply := Json(user);
  }

  /** `PUT`: `findOneAndUpdate` on the caller's user, without upsert; `null` when there is no such user.
      `profile.bmi` is not a declared path, so the schema's strict mode drops it from the `$set` and only
      the profile replacement takes effect. */
  method Put(db: Database, userId: Option<string>, body: Option<UpdateBody>, connected: bool)
    returns (reply: Reply<Option<UserDoc>>)
    requires db.Valid()
    modifies db
    ensures db.Valid()
    ensures unchanged(db`chats, db`checkIns, db`dietPlans, db`recommendations, db`nextId)
    ensures !SignedIn(userId) || body.None? || !connected ==> db.users == old(db.users)
    ensures !SignedIn(userId) ==> reply == Unauthorized()
    ensures SignedIn(userId) && (body.None? || !connected) ==> reply == InternalError()
    ensures SignedIn(userId) && body.Some? && connected ==>
      var k := Query.FindIndex(old(db.users), HasUserId(userId.value));
      && |db.users| == |old(db.users)|
      && (k.None? ==> reply == Json(None) && db.users == old(db.users))
      && (k.Some? ==>
            var before := old(db.users)[k.value];
            && db.users == old(db.users)[k.value := db.users[k.value]]
            && db.users[k.value] == before.(profile := if AnyProfileField(body.value) then Some(BodyProfile(body.value))
                                                      else before.profile)
            && reply == Json(Some(db.users[k.value])))
  {
    if !SignedIn(userId) {
      return Unauthorized();
    }
    if body.None? || !connected {
      return InternalError();
    }
    var update := BuildUpdate(body.value);
    var k := Query.FindIndex(db.users, HasUserId(userId.value));
    if k.None? {
      return Json(None);
    }
    var updated := db.users[k.value];
    if update.profile.Some? {
      updated := updated.(profile := update.profile);
    }
    db.users := db.users[k.value := updated];
    reply := Json(Some(updated));
  }
}
