/** The `DietPlan` collection's schema: a week of daily plans per user. */
module DietPlanModel {

  datatype Recipe = Recipe(name: string, ingredients: seq<string>, instructions: seq<string>)

  datatype Meal = Meal(time: string, items: seq<string>, herbs: seq<string>, recipe: Recipe)

  datatype DailyPlan = DailyPlan(day: string, meals: seq<Meal>, remedies: seq<string>)

  /** `weekStartDate` is kept as the day number of the midnight it holds. */
  datatype DietPlanDoc = DietPlanDoc(id: nat, userId: string, weekStartDay: int, dailyPlans: seq<DailyPlan>, createdAt: int)

  function OwnedBy(userId: string): DietPlanDoc -> bool {
    (p: DietPlanDoc) => p.userId == userId
  }

  function NotOwnedBy(userId: string): DietPlanDoc -> bool {
    (p: DietPlanDoc) => p.userId != userId
  }

  /** The lookup filter of the current-week query: the caller's plans starting on or after `start`. */
  function OwnedFrom(userId: string, start: int): DietPlanDoc -> bool {
    (p: DietPlanDoc) => p.userId == userId && p.weekStartDay >= start
  }

  function WeekStart(): DietPlanDoc -> int {
    (p: DietPlanDoc) => p.weekStartDay
  }
}
