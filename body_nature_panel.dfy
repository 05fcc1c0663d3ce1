/**
 * The dashboard's body-nature card: the table of constitution descriptions, which of its four faces the
 * card shows, and the analyse action with its profile guard.
 */
module BodyNaturePanel {
  import opened Wrappers
  import UserModel
  import ClientStore

  datatype DoshaInfo = DoshaInfo(title: string, description: string, characteristics: seq<string>, color: string)

  /** The description table; its keys are capitalised. */
  const DoshaDescriptions: map<string, DoshaInfo> := map[
    "Vata" := DoshaInfo("Vata Dosha",
      "Creative, quick-thinking, and adaptable. You thrive on change and movement.",
      ["Light and energetic", "Creative mind", "Quick to learn", "Irregular patterns"],
      "from-purple-500 to-blue-500"),
    "Pitta" := DoshaInfo("Pitta Dosha",
      "Focused, ambitious, and determined. You have a natural leadership quality.",
      ["Sharp intellect", "Good digestion", "Strong metabolism", "Natural leaders"],
      "from-red-500 to-orange-500"),
    "Kapha" := DoshaInfo("Kapha Dosha",
      "Calm, grounded, and nurturing. You bring stability and support to others.",
      ["Strong stamina", "Calm nature", "Good memory", "Steady energy"],
      "from-green-500 to-teal-500"),
    "Vata-Pitta" := DoshaInfo("Vata-Pitta Type",
      "Combines creativity with determination. Dynamic and multi-talented.",
      ["Adaptable", "Quick-minded", "Passionate", "Innovative"],
      "from-purple-500 to-orange-500"),
    "Pitta-Kapha" := DoshaInfo("Pitta-Kapha Type",
      "Balances ambition with stability. Strong and determined yet nurturing.",
      ["Steady strength", "Natural leader", "Reliable", "Warm-hearted"],
      "from-orange-500 to-green-500"),
    "Vata-Kapha" := DoshaInfo("Vata-Kapha Type",
      "Blends creativity with calmness. Adaptable yet grounding presence.",
      ["Creative stability", "Flexible routine", "Supportive", "Thoughtful"],
      "from-purple-500 to-green-500")
  ]

  /** The table has exactly the six capitalised keys. */
  lemma TableKeys()
    ensures DoshaDescriptions.Keys == {"Vata", "Pitta", "Kapha", "Vata-Pitta", "Pitta-Kapha", "Vata-Kapha"}
    ensures forall k :: k in DoshaDescriptions ==> |k| > 0 && 'A' <= k[0] <= 'Z'
  {
  }

  /** Every entry of the table lists four characteristics. */
  lemma FourTraits(key: string)
    requires key in DoshaDescriptions
    ensures |DoshaDescriptions[key].characteristics| == 4
  {
  }

  /** The names every plain JavaScript object inherits from `Object.prototype`; an index expression on
      the table finds these too. */
  const InheritedNames: set<string> := {
    "constructor", "hasOwnProperty", "isPrototypeOf", "propertyIsEnumerable", "toLocaleString",
    "toString", "valueOf", "__proto__", "__defineGetter__", "__defineSetter__", "__lookupGetter__",
    "__lookupSetter__"
  }

  /** What `DOSHA_DESCRIPTIONS[bodyNature]` evaluates to: an own entry, an inherited member (a function,
      or the prototype object itself), or `undefined`. */
  datatype Lookup = Own(info: DoshaInfo) | Inherited(name: string) | Absent

  /** The index expression as written: own keys first, then the prototype chain. */
  function LookupAsWritten(key: string): (r: Lookup)
    ensures r.Own? <==> key in DoshaDescriptions
    ensures r.Own? ==> r.info == DoshaDescriptions[key]
    ensures r.Inherited? <==> key !in DoshaDescriptions && key in InheritedNames
  {
    if key in DoshaDescriptions then Own(DoshaDescriptions[key])
    else if key in InheritedNames then Inherited(key)
    else Absent
  }

  /** The faces of the card once loading is over; `RenderError` is a render that throws. */
  datatype Display = NeedsProfile | NotAnalyzed | Unable | Show(info: DoshaInfo) | RenderError

  /** The card as written: an inherited member is truthy, so it passes the "Unable to Analyze" guard,
      and reading `characteristics` off it yields `undefined`, whose `map` throws during render. */
  function DisplayAsWritten(hasProfile: bool, bodyNature: Option<string>): (d: Display)
    ensures d.RenderError? <==> hasProfile && bodyNature.Some? && LookupAsWritten(bodyNature.value).Inherited?
  {
    if !hasProfile then NeedsProfile
    else if bodyNature.None? || bodyNature.value == "" then NotAnalyzed
    else
      match LookupAsWritten(bodyNature.value)
      case Own(info) => Show(info)
      case Inherited(_) => RenderError
      case Absent => Unable
  }

  /** The card as intended: only the table's own entries are shown, every other value is "Unable to
      Analyze", and rendering never throws. */
  function CardDisplay(hasProfile: bool, bodyNature: Option<string>): (d: Display)
    ensures d.NeedsProfile? <==> !hasProfile
    ensures d.NotAnalyzed? <==> hasProfile && (bodyNature.None? || bodyNature.value == "")
    ensures d.Show? <==> hasProfile && bodyNature.Some? && bodyNature.value in DoshaDescriptions
    ensures d.Show? ==> d.info == DoshaDescriptions[bodyNature.value] && |d.info.characteristics| == 4
    ensures d.Unable? <==> hasProfile && bodyNature.Some? && bodyNature.value != ""
                           && bodyNature.value !in DoshaDescriptions
    ensures !d.RenderError?
  {
    if !hasProfile then NeedsProfile
    else if bodyNature.None? || bodyNature.value == "" then NotAnalyzed
    else if bodyNature.value in DoshaDescriptions then
      FourTraits(bodyNature.value);
      Show(DoshaDescriptions[bodyNature.value])
    else Unable
  }

  /** The two agree on every value except the inherited names. */
  lemma AgreeOutsideInheritedNames(hasProfile: bool, bodyNature: Option<string>)
    requires bodyNature.Some? ==> bodyNature.value !in InheritedNames
    ensures DisplayAsWritten(hasProfile, bodyNature) == CardDisplay(hasProfile, bodyNature)
  {
  }

  /** A prediction of `"toString"` crashes the card as written, where the intended card says "Unable
      to Analyze". */
  lemma InheritedNameCrashes()
    ensures DisplayAsWritten(true, Some("toString")) == RenderError
    ensures CardDisplay(true, Some("toString")) == Unable
  {
    TableKeys();
  }

  /** None of the lower-case values the user schema allows is a key, so each of them is shown as
      "Unable to Analyze". */
  lemma StoredValuesUnable(b: UserModel.BodyNature)
    ensures CardDisplay(true, Some(UserModel.BodyNatureName(b))) == Unable
  {
    var name := UserModel.BodyNatureName(b);
    assert 'a' <= name[0] <= 'z' by {
      match b
      case Vata => assert name[0] == 'v';
      case Pitta => assert name[0] == 'p';
      case Kapha => assert name[0] == 'k';
      case VataPitta => assert name[0] == 'v';
      case PittaKapha => assert name[0] == 'p';
      case VataKapha => assert name[0] == 'v';
    }
    TableKeys();
  }

  /** `chats.flatMap(chat => chat.messages)`: every chat's messages, chat after chat. */
  function Flatten(chats: seq<ClientStore.Chat>): (r: seq<ClientStore.Message>)
    ensures chats == [] ==> r == []
    ensures chats != [] ==> chats[0].messages <= r
  {
    if chats == [] then [] else chats[0].messages + Flatten(chats[1..])
  }

  /** Flattening distributes over concatenation of chat lists. */
  lemma {:induction false} FlattenAppend(a: seq<ClientStore.Chat>, b: seq<ClientStore.Chat>)
    ensures Flatten(a + b) == Flatten(a) + Flatten(b)
  {
    if a == [] {
      assert a + b == b;
    } else {
      assert (a + b)[0] == a[0] && (a + b)[1..] == a[1..] + b;
      FlattenAppend(a[1..], b);
    }
  }

  /** A message is sent exactly when some chat in the list holds it. */
  lemma {:induction false} FlattenContains(chats: seq<ClientStore.Chat>, m: ClientStore.Message)
    ensures m in Flatten(chats) <==> exists i :: 0 <= i < |chats| && m in chats[i].messages
  {
    if chats != [] {
      FlattenContains(chats[1..], m);
      if exists i :: 0 <= i < |chats| && m in chats[i].messages {
        var i :| 0 <= i < |chats| && m in chats[i].messages;
        if i > 0 {
          assert chats[1..][i - 1] == chats[i];
        }
      }
      if exists i :: 0 <= i < |chats[1..]| && m in chats[1..][i].messages {
        var i :| 0 <= i < |chats[1..]| && m in chats[1..][i].messages;
        assert chats[i + 1] == chats[1..][i];
      }
    }
  }

  /** The analysis request: the profile fields as stored, and every cached chat message. */
  datatype AnalysisRequest = AnalysisRequest(
    age: Option<real>, gender: Option<string>, weight: Option<real>, height: Option<real>,
    foodPreference: Option<string>, messages: seq<ClientStore.Message>)

  datatype Event = Navigate(path: string) | Busy(on: bool) | RequestAnalysis(request: AnalysisRequest)

  class BodyNatureCard {
    var profile: Option<UserModel.Profile>
    var bodyNature: Option<string>
    var analyzing: bool
    var events: seq<Event>

    constructor ()
      ensures profile.None? && bodyNature.None? && !analyzing && events == []
    {
      profile, bodyNature, analyzing, events := None, None, false, [];
    }

    /** The face the card shows for its current fields. */
    function Face(): (d: Display)
      reads this
      ensures d.Show? <==> profile.Some? && bodyNature.Some? && bodyNature.value in DoshaDescriptions
    {
      CardDisplay(profile.Some?, bodyNature)
    }

    /** `analyzeBodyNature`: without a profile, only a redirect to the settings page. Otherwise the busy
        flag goes up, the profile and all cached messages are sent, an ok response's `bodyNature`
        replaces the shown one, and the flag comes down whatever happened. */
    method AnalyzeBodyNature(store: ClientStore.ChatStore, response: ClientStore.Response<Option<string>>)
      modifies this
      ensures profile == old(profile)
      ensures old(profile).None? ==>
        events == old(events) + [Navigate("/settings")] && bodyNature == old(bodyNature) && analyzing == old(analyzing)
      ensures old(profile).Some? ==>
        var p := old(profile).value;
        && events == old(events) + [Busy(true),
             RequestAnalysis(AnalysisRequest(p.age, p.gender, p.weight, p.height, p.foodPreference, Flatten(store.chats))),
             Busy(false)]
        && !analyzing
        && bodyNature == if response.Ok? then response.body else old(bodyNature)
    {
      if profile.None? {
        events := events + [Navigate("/settings")];
        return;
      }
      var p := profile.value;
      analyzing := true;
      events := events + [Busy(true)];
      var request := AnalysisRequest(p.age, p.gender, p.weight, p.height, p.foodPreference, Flatten(store.chats));
      events := events + [RequestAnalysis(request)];
      if response.Ok? {
        bodyNature := response.body;
      }
      analyzing := false;
      events := events + [Busy(false)];
    }
  }
}
