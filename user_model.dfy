/** The `User` collection's schema: enumerations, defaults and the unique `userId`. */
module UserModel {
  import opened Wrappers
  import Query

  datatype SubscriptionStatus = Unpaid | Paid

  function SubscriptionStatusName(s: SubscriptionStatus): string {
    match s
    case Unpaid => "unpaid"
    case Paid => "paid"
  }

  /** Enum membership of `subscriptionStatus`. */
  function ParseSubscriptionStatus(s: string): (r: Option<SubscriptionStatus>)
    ensures r.Some? <==> s == "unpaid" || s == "paid"
    ensures r.Some? ==> SubscriptionStatusName(r.value) == s
  {
    if s == "unpaid" then Some(Unpaid) else if s == "paid" then Some(Paid) else None
  }

  /** The six constitution types; the stored values are lower-case. */
  datatype BodyNature = Vata | Pitta | Kapha | VataPitta | PittaKapha | VataKapha

  function BodyNatureName(b: BodyNature): string {
    match b
    case Vata => "vata"
    case Pitta => "pitta"
    case Kapha => "kapha"
    case VataPitta => "vata-pitta"
    case PittaKapha => "pitta-kapha"
    case VataKapha => "vata-kapha"
  }

  /** Enum membership of `bodyNature`. */
  function ParseBodyNature(s: string): (r: Option<BodyNature>)
    ensures r.Some? <==> s in {"vata", "pitta", "kapha", "vata-pitta", "pitta-kapha", "vata-kapha"}
    ensures r.Some? ==> BodyNatureName(r.value) == s
  {
    if s == "vata" then Some(Vata)
    else if s == "pitta" then Some(Pitta)
    else if s == "kapha" then Some(Kapha)
    else if s == "vata-pitta" then Some(VataPitta)
    else if s == "pitta-kapha" then Some(PittaKapha)
    else if s == "vata-kapha" then Some(VataKapha)
    else None
  }

  datatype Gender = Male | Female | Other

  function GenderName(g: Gender): string {
    match g
    case Male => "male"
    case Female => "female"
    case Other => "other"
  }

  /** Enum membership of `profile.gender`. */
  function ParseGender(s: string): (r: Option<Gender>)
    ensures r.Some? <==> s == "male" || s == "female" || s == "other"
    ensures r.Some? ==> GenderName(r.value) == s
  {
    if s == "male" then Some(Male) else if s == "female" then Some(Female) else if s == "other" then Some(Other) else None
  }

  datatype FoodPreference = Vegan | Vegetarian | NonVegetarian

  function FoodPreferenceName(f: FoodPreference): string {
    match f
    case Vegan => "vegan"
    case Vegetarian => "vegetarian"
    case NonVegetarian => "non-vegetarian"
  }

  /** Enum membership of `profile.foodPreference`. */
  function ParseFoodPreference(s: string): (r: Option<FoodPreference>)
    ensures r.Some? <==> s == "vegan" || s == "vegetarian" || s == "non-vegetarian"
    ensures r.Some? ==> FoodPreferenceName(r.value) == s
  {
    if s == "vegan" then Some(Vegan)
    else if s == "vegetarian" then Some(Vegetarian)
    else if s == "non-vegetarian" then Some(NonVegetarian)
    else None
  }

  /** Every enumeration value parses back from its stored name. */
  lemma NamesParse(s: SubscriptionStatus, b: BodyNature, g: Gender, f: FoodPreference)
    ensures ParseSubscriptionStatus(SubscriptionStatusName(s)) == Some(s)
    ensures ParseBodyNature(BodyNatureName(b)) == Some(b)
    ensures ParseGender(GenderName(g)) == Some(g)
    ensures ParseFoodPreference(FoodPreferenceName(f)) == Some(f)
  {
  }

  /** The `profile` sub-object: exactly these five paths are declared (there is no `bmi` path).
      `gender` and `foodPreference` hold the strings as written: the only writer, `findOneAndUpdate`,
      does not run the enum validators. */
  datatype Profile = Profile(
    weight: Option<real>,
    height: Option<real>,
    age: Option<real>,
    gender: Option<string>,
    foodPreference: Option<string>)

  datatype UserDoc = UserDoc(
    id: nat,
    userId: string,
    subscriptionStatus: SubscriptionStatus,
    bodyNature: Option<BodyNature>,
    profile: Option<Profile>,
    createdAt: int)

  /** `User.create({ userId })`: the schema defaults fill in the rest. */
  function NewUser(id: nat, userId: string, now: int): (u: UserDoc)
    ensures u.userId == userId && u.id == id
    ensures u.subscriptionStatus == Unpaid && SubscriptionStatusName(u.subscriptionStatus) == "unpaid"
    ensures u.bodyNature.None? && u.profile.None?
    ensures u.createdAt == now
  {
    UserDoc(id, userId, Unpaid, None, None, now)
  }

  /** The unique index on `userId`. */
  ghost predicate UniqueUserIds(users: seq<UserDoc>) {
    forall i, j :: 0 <= i < j < |users| ==> users[i].userId != users[j].userId
  }

  function HasUserId(userId: string): UserDoc -> bool {
    (u: UserDoc) => u.userId == userId
  }

  /** `User.findOne({ userId })`. */
  function FindUser(users: seq<UserDoc>, userId: string): Option<UserDoc> {
    Query.Find(users, HasUserId(userId))
  }

  /** The guard `!user || !user.profile` of the generating routes fails exactly when this holds. */
  predicate HasProfile(users: seq<UserDoc>, userId: string) {
    FindUser(users, userId).Some? && FindUser(users, userId).value.profile.Some?
  }
}
