/** `GET /api/diet-plan` (the plan of the current week) and `POST /api/diet-plan` (replace the plan). */
module DietPlanRoute {
  import opened Wrappers
  import opened Store
  import opened DietPlanModel
  import opened UserModel
  import opened Calendar
  import Gemini
  import Query

  /** `DietPlan.findOne({ userId, weekStartDate: { $gte: start } }).sort({ weekStartDate: -1 })`,
      where `start` is midnight of the most recent Sunday. */
  function CurrentPlan(plans: seq<DietPlanDoc>, userId: string, today: int): (r: Option<DietPlanDoc>)
    ensures r.None? <==> forall p :: p in plans ==> p.userId != userId || p.weekStartDay < CurrentWeekStart(today)
    ensures r.Some? ==>
      && r.value in plans
      && r.value.userId == userId && r.value.weekStartDay >= CurrentWeekStart(today)
      && forall p :: p in plans && p.userId == userId && p.weekStartDay >= CurrentWeekStart(today)
                     ==> p.weekStartDay <= r.value.weekStartDay
  {
    Query.FindOneSortedSpec(plans, OwnedFrom(userId, CurrentWeekStart(today)), WeekStart());
    Query.FindOneSorted(plans, OwnedFrom(userId, CurrentWeekStart(today)), WeekStart())
  }

  /** `GET`: the caller's plan with the latest week start among those starting this week or later, or
      `null` when there is none. */
  method Get(db: Database, userId: Option<string>, connected: bool, now: int) returns (reply: Reply<Option<DietPlanDoc>>)
    ensures !SignedIn(userId) ==> reply == Unauthorized()
    ensures SignedIn(userId) && !connected ==> reply == InternalError()
    ensures SignedIn(userId) && connected ==>
      var start := CurrentWeekStart(DayOf(now));
      && reply.Json?
      && (reply.body.None? <==> forall p :: p in db.dietPlans ==> p.userId != userId.value || p.weekStartDay < start)
      && (reply.body.Some? ==>
            && reply.body.value in db.dietPlans
            && reply.body.value.userId == userId.value && reply.body.value.weekStartDay >= start
            && forall p :: p in db.dietPlans && p.userId == userId.value && p.weekStartDay >= start
                           ==> p.weekStartDay <= reply.body.value.weekStartDay)
  {
    if !SignedIn(userId) {
      return Unauthorized();
    }
    if !connected {
      return InternalError();
    }
    reply := Json(CurrentPlan(db.dietPlans, userId.value, DayOf(now)));
  }

  /** `POST`: without a user profile, a 404 before anything is deleted; otherwise every plan of the caller
      is deleted, then the plan is generated, then stored with a Monday week start. A failed generation,
      or a generated day the subdocument schema cannot cast, is a 500 that leaves the caller with no plan
      at all. Other users' plans are never touched. */
  method Post(db: Database, userId: Option<string>, connected: bool, now: int,
              reply: Option<string>, parse: string -> Option<Gemini.Json>, cast: Gemini.Json -> Option<DailyPlan>)
    returns (response: Reply<DietPlanDoc>)
    requires db.Valid()
    modifies db
    ensures db.Valid()
    ensures unchanged(db`users, db`chats, db`checkIns, db`recommendations)
    ensures !SignedIn(userId) ==> response == Unauthorized() && unchanged(db)
    ensures SignedIn(userId) && !connected ==> response == InternalError() && unchanged(db)
    ensures SignedIn(userId) && connected && !HasProfile(old(db.users), userId.value) ==>
      response == ProfileNotFound() && unchanged(db)
    ensures SignedIn(userId) && connected && HasProfile(old(db.users), userId.value) ==>
      var uid := userId.value;
      var generated := Gemini.GetDietPlan(reply, parse);
      && Query.Filter(db.dietPlans, NotOwnedBy(uid)) == Query.Filter(old(db.dietPlans), NotOwnedBy(uid))
      && (generated.Failure? || !AllCast(generated.value, cast) ==>
            response == InternalError() && Query.Filter(db.dietPlans, OwnedBy(uid)) == [])
      && (generated.Success? && AllCast(generated.value, cast) ==>
            && response.Json?
            && Query.Filter(db.dietPlans, OwnedBy(uid)) == [response.body]
            && response.body.userId == uid
            && response.body.weekStartDay == PlanWeekStart(DayOf(now))
            && |response.body.dailyPlans| == 7
            && (forall i :: 0 <= i < 7 ==> cast(generated.value[i]) == Some(response.body.dailyPlans[i])))
  {
    if !SignedIn(userId) {
      return Unauthorized();
    }
    if !connected {
      return InternalError();
    }
    var uid := userId.value;
    if !HasProfile(db.users, uid) {
      return ProfileNotFound();
    }
    DeleteCallerPlans(db, uid);
    DeleteOwned(old(db.dietPlans), uid);
    var generated := Gemini.GetDietPlan(reply, parse);
    if generated.Failure? {
      return InternalError();
    }
    var dailyPlans := CastAll(generated.value, cast);
    if dailyPlans.None? {
      return InternalError();
    }
    response := StoreGenerated(db, uid, now, dailyPlans.value);
  }

  /** `DietPlan.deleteMany({ userId })`: the caller's plans go, everything else stays. */
  method DeleteCallerPlans(db: Database, uid: string)
    requires db.Valid()
    modifies db`dietPlans
    ensures db.Valid()
    ensures db.dietPlans == Query.Filter(old(db.dietPlans), NotOwnedBy(uid))
  {
    var kept := Query.Filter(db.dietPlans, NotOwnedBy(uid));
    assert forall d :: d in kept ==> d in db.dietPlans by {
      forall d | d in kept ensures d in db.dietPlans {
        assert multiset(kept)[d] > 0;
      }
    }
    db.dietPlans := kept;
  }

  /** Every generated day casts into the `dailyPlans` subdocument schema. */
  predicate AllCast(days: seq<Gemini.Json>, cast: Gemini.Json -> Option<DailyPlan>) {
    forall i :: 0 <= i < |days| ==> cast(days[i]).Some?
  }

  /** Mongoose casting of the generated array: the cast days, or nothing when any day fails to cast
      (which makes `DietPlan.create` throw). */
  function CastAll(days: seq<Gemini.Json>, cast: Gemini.Json -> Option<DailyPlan>): (r: Option<seq<DailyPlan>>)
    ensures r.Some? <==> AllCast(days, cast)
    ensures r.Some? ==> |r.value| == |days| && forall i :: 0 <= i < |days| ==> cast(days[i]) == Some(r.value[i])
  {
    if AllCast(days, cast) then Some(seq(|days|, i requires 0 <= i < |days| => cast(days[i]).value)) else None
  }

  /** The length check lets through seven values the subdocument schema cannot cast; `create` then
      throws, and the caller's old plans are already gone. */
  lemma UncastableWeekPassesLengthCheck(items: seq<Gemini.Json>, cast: Gemini.Json -> Option<DailyPlan>, k: int)
    requires |items| == 7 && 0 <= k < 7 && cast(items[k]).None?
    ensures Gemini.DailyPlansOf(Gemini.JObject(map["dailyPlans" := Gemini.JArray(items)])).Success?
    ensures CastAll(items, cast).None?
  {
    Gemini.AcceptsAnySevenValues(items);
  }

  /** The tail of `POST` once the caller's plans are gone and the days are cast: `DietPlan.create`. The
      new plan becomes the caller's only one and other users' plans stay as they were. */
  method StoreGenerated(db: Database, uid: string, now: int, dailyPlans: seq<DailyPlan>)
    returns (response: Reply<DietPlanDoc>)
    requires db.Valid()
    requires Query.Filter(db.dietPlans, OwnedBy(uid)) == []
    modifies db
    ensures db.Valid()
    ensures unchanged(db`users, db`chats, db`checkIns, db`recommendations)
    ensures Query.Filter(db.dietPlans, NotOwnedBy(uid)) == Query.Filter(old(db.dietPlans), NotOwnedBy(uid))
    ensures response.Json? && Query.Filter(db.dietPlans, OwnedBy(uid)) == [response.body]
    ensures response.body.userId == uid && response.body.weekStartDay == PlanWeekStart(DayOf(now))
    ensures response.body.dailyPlans == dailyPlans
    ensures old(db.Unused(response.body.id))
  {
    var others := db.dietPlans;
    var id := db.NewId();
    var plan := DietPlanDoc(id, uid, PlanWeekStart(DayOf(now)), dailyPlans, now);
    db.dietPlans := others + [plan];
    AppendOwned(others, plan);
    response := Json(plan);
  }

  /** `DietPlan.deleteMany({ userId })` leaves none of the caller's plans and all of the others. */
  lemma DeleteOwned(plans: seq<DietPlanDoc>, userId: string)
    ensures Query.Filter(Query.Filter(plans, NotOwnedBy(userId)), OwnedBy(userId)) == []
    ensures Query.Filter(Query.Filter(plans, NotOwnedBy(userId)), NotOwnedBy(userId))
         == Query.Filter(plans, NotOwnedBy(userId))
  {
    Query.FilterNone(Query.Filter(plans, NotOwnedBy(userId)), OwnedBy(userId));
    Query.FilterTwice(plans, NotOwnedBy(userId), NotOwnedBy(userId));
  }

  /** Appending the caller's new plan after the delete makes it the caller's only plan. */
  lemma AppendOwned(others: seq<DietPlanDoc>, plan: DietPlanDoc)
    requires Query.Filter(others, OwnedBy(plan.userId)) == []
    ensures Query.Filter(others + [plan], OwnedBy(plan.userId)) == [plan]
    ensures Query.Filter(others + [plan], NotOwnedBy(plan.userId)) == Query.Filter(others, NotOwnedBy(plan.userId))
  {
    Query.FilterAppend(others, [plan], OwnedBy(plan.userId));
    Query.FilterAppend(others, [plan], NotOwnedBy(plan.userId));
  }

  /** The plan a `POST` leaves behind is what a `GET` on the same day returns: its week start is one day
      after the start of the window the lookup searches. */
  lemma {:induction false} PostThenGetSameDay(plans: seq<DietPlanDoc>, userId: string, plan: DietPlanDoc, today: int)
    requires Query.Filter(plans, OwnedBy(userId)) == [plan]
    requires plan.weekStartDay == PlanWeekStart(today)
    ensures CurrentPlan(plans, userId, today) == Some(plan)
  {
    var start := CurrentWeekStart(today);
    Query.FindOneSortedSpec(plans, OwnedFrom(userId, start), WeekStart());
    assert plan in Query.Filter(plans, OwnedBy(userId));
    var found := CurrentPlan(plans, userId, today);
    assert found.Some?;
    assert found.value in Query.Filter(plans, OwnedBy(userId));
  }
}
