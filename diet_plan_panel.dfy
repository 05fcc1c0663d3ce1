/**
 * The dashboard's diet-plan card: picking today's entry out of the loaded plan, and the generate
 * action with its profile guard and busy flag.
 */
module DietPlanPanel {
  import opened Wrappers
  import opened Text
  import opened DietPlanModel
  import UserModel
  import ClientStore
  import Query

  /** The day filter of `getTodaysPlan`: the entry's day name equals today's, both lower-cased. */
  function SameDay(today: string): (r: DailyPlan -> bool)
    ensures forall p: DailyPlan :: p.day == today ==> r(p)
    ensures forall p: DailyPlan :: r(p) ==> |p.day| == |today|
  {
    (p: DailyPlan) => ToLower(p.day) == ToLower(today)
  }

  /** `getTodaysPlan`'s three answers: `null` (no plan loaded), `undefined` (no entry for today), or
      the entry. */
  datatype TodaysPlan = NoPlan | NoMatch | Found(plan: DailyPlan)

  /** `getTodaysPlan`: the first daily entry whose lower-cased day is today's lower-cased name. */
  function GetTodaysPlan(dietPlan: Option<DietPlanDoc>, today: string): (r: TodaysPlan)
    ensures r.NoPlan? <==> dietPlan.None?
    ensures r.NoMatch? <==> dietPlan.Some? && forall i :: 0 <= i < |dietPlan.value.dailyPlans|
                                                ==> ToLower(dietPlan.value.dailyPlans[i].day) != ToLower(today)
    ensures r.Found? ==> exists i :: 0 <= i < |dietPlan.value.dailyPlans|
                                     && dietPlan.value.dailyPlans[i] == r.plan
                                     && ToLower(r.plan.day) == ToLower(today)
                                     && forall j :: 0 <= j < i ==> ToLower(dietPlan.value.dailyPlans[j].day) != ToLower(today)
  {
    if dietPlan.None? then NoPlan
    else
      var days := dietPlan.value.dailyPlans;
      match Query.FindIndex(days, SameDay(today))
      case None => NoMatch
      case Some(k) =>
        assert SameDay(today)(days[k]);
        Found(days[k])
  }

  /** The match ignores letter case on either side: two plans whose day names agree once lower-cased
      pick the entry at the same position, whatever the case of today's name. */
  lemma {:induction false} CaseInsensitive(days: seq<DailyPlan>, days': seq<DailyPlan>, today: string, today': string)
    requires |days| == |days'|
    requires forall i :: 0 <= i < |days| ==> ToLower(days[i].day) == ToLower(days'[i].day)
    requires ToLower(today) == ToLower(today')
    ensures Query.FindIndex(days, SameDay(today)) == Query.FindIndex(days', SameDay(today'))
  {
    if days != [] {
      assert SameDay(today)(days[0]) == SameDay(today')(days'[0]);
      CaseInsensitive(days[1..], days'[1..], today, today');
    }
  }

  /** An entry written in capitals is found on its day. */
  lemma CapitalDayFound(meals: seq<Meal>, remedies: seq<string>, plan: DietPlanDoc)
    requires plan.dailyPlans == [DailyPlan("MONDAY", meals, remedies)]
    ensures GetTodaysPlan(Some(plan), "Monday") == Found(plan.dailyPlans[0])
  {
    assert ToLower("MONDAY") == "monday";
    assert ToLower("Monday") == "monday";
  }

  /** The effects the generate action has beyond its fields, in order. */
  datatype Event = Navigate(path: string) | Busy(on: bool) | RequestPlan

  class DietPlanCard {
    var profile: Option<UserModel.Profile>
    var dietPlan: Option<DietPlanDoc>
    var generating: bool
    var events: seq<Event>

    constructor ()
      ensures profile.None? && dietPlan.None? && !generating && events == []
    {
      profile, dietPlan, generating, events := None, None, false, [];
    }

    /** `generateDietPlan`: without a profile, only a redirect to the settings page. Otherwise the busy
        flag goes up, the plan is requested, the shown plan is replaced only by an ok response, and the
        flag comes down whatever happened. */
    method GenerateDietPlan(response: ClientStore.Response<DietPlanDoc>)
      modifies this
      ensures profile == old(profile)
      ensures old(profile).None? ==>
        events == old(events) + [Navigate("/settings")] && dietPlan == old(dietPlan) && generating == old(generating)
      ensures old(profile).Some? ==> events == old(events) + [Busy(true), RequestPlan, Busy(false)] && !generating
      ensures old(profile).Some? && response.Ok? ==> dietPlan == Some(response.body)
      ensures !(old(profile).Some? && response.Ok?) ==> dietPlan == old(dietPlan)
    {
      if profile.None? {
        events := events + [Navigate("/settings")];
        return;
      }
      generating := true;
      events := events + [Busy(true)];
      events := events + [RequestPlan];
      if response.Ok? {
        dietPlan := Some(response.body);
      }
      generating := false;
      events := events + [Busy(false)];
    }
  }
}
