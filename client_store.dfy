/**
 * The browser-side caches: the check-in list and the chat list with the id of the open chat. Each action
 * takes the outcome of its one `fetch` as an input and updates the cached fields the way `set` does.
 */
module ClientStore {
  import opened Wrappers
  import opened Calendar
  import Query

  /** What a `fetch` produced: an ok response with its parsed body, a response whose status is not ok,
      or a thrown error (network failure, unparsable body) with its message. */
  datatype Response<T> = Ok(body: T) | NotOk | Failed(error: string)

  const SaveCheckInError := "Failed to save check-in"
  const CreateChatError := "Failed to create chat"
  const AddMessageError := "Failed to add message"

  /** The error a failed request rethrows: the action's own message for a non-ok status, otherwise
      whatever the `fetch` or the body parser threw. */
  function Thrown<T>(response: Response<T>, notOk: string): (e: string)
    requires !response.Ok?
    ensures response.NotOk? ==> e == notOk
    ensures response.Failed? ==> e == response.error
  {
    if response.NotOk? then notOk else response.error
  }

  /** A check-in as the client holds it; `date` is the instant the server stored. */
  datatype CheckIn = CheckIn(id: string, date: int, responses: map<string, string>)

  /** The check-in prompt: shown when nothing is cached, or when the first cached check-in is from
      another UTC calendar day than `now`. */
  function PromptNeeded(checkIns: seq<CheckIn>, now: int): (r: bool)
    ensures !r <==> checkIns != [] && DayOf(now) * MillisPerDay <= checkIns[0].date < (DayOf(now) + 1) * MillisPerDay
  {
    checkIns == [] || DayOf(checkIns[0].date) != DayOf(now)
  }

  /** Only the head of the list is consulted: the rest may be anything, in any order. */
  lemma PromptReadsOnlyHead(c: CheckIn, rest: seq<CheckIn>, rest': seq<CheckIn>, now: int)
    ensures PromptNeeded([c] + rest, now) == PromptNeeded([c] + rest', now)
    ensures PromptNeeded([c] + rest, now) <==> DayOf(c.date) != DayOf(now)
  {
  }

  /** Once a check-in of today's date has been added, the prompt is gone for the rest of the day, and
      an earlier check-in today in the list makes no difference. */
  lemma NoPromptAfterTodaysCheckIn(c: CheckIn, checkIns: seq<CheckIn>, now: int, later: int)
    requires DayOf(c.date) == DayOf(now)
    requires now <= later < (DayOf(now) + 1) * MillisPerDay
    ensures !PromptNeeded([c] + checkIns, later)
  {
  }

  class WellnessStore {
    var checkIns: seq<CheckIn>

    constructor ()
      ensures checkIns == []
    {
      checkIns := [];
    }

    /** `addCheckIn`: the saved check-in goes in front of the cached ones, which keep their order; on
        any failure the cache is left as it was and the error is rethrown. */
    method AddCheckIn(response: Response<CheckIn>) returns (outcome: Outcome<string>)
      modifies this
      ensures response.Ok? ==> outcome == Pass && checkIns == [response.body] + old(checkIns)
      ensures response.Ok? ==> checkIns[0] == response.body && checkIns[1..] == old(checkIns)
      ensures !response.Ok? ==> outcome == Fail(Thrown(response, SaveCheckInError)) && checkIns == old(checkIns)
    {
      if !response.Ok? {
        return Fail(Thrown(response, SaveCheckInError));
      }
      checkIns := [response.body] + checkIns;
      outcome := Pass;
    }

    /** `fetchCheckIns`: the whole list is replaced on success; a failure is swallowed and leaves the
        list alone. */
    method FetchCheckIns(response: Response<seq<CheckIn>>)
      modifies this
      ensures response.Ok? ==> checkIns == response.body
      ensures !response.Ok? ==> checkIns == old(checkIns)
    {
      if response.Ok? {
        checkIns := response.body;
      }
    }

    /** `shouldPromptNewCheckIn`: true on an empty list, otherwise true exactly when the newest cached
        check-in is not from today. */
    function ShouldPromptNewCheckIn(now: int): (r: bool)
      reads this
      ensures checkIns == [] ==> r
      ensures checkIns != [] ==> (r <==> DayOf(checkIns[0].date) != DayOf(now))
    {
      PromptNeeded(checkIns, now)
    }
  }

  /** A message as the client holds it; the server's `_id` and a client `id` may each be missing. */
  datatype Message = Message(id: Option<string>, altId: Option<string>, content: string, role: string, createdAt: string)

  /** A chat as the client holds it: `id` is the server's `_id`, `altId` the optional `id`. */
  datatype Chat = Chat(id: string, altId: Option<string>, title: string, createdAt: string, messages: seq<Message>)

  /** The lookup rule of `getChat` and `addMessage`: `_id` or `id` equals the key. */
  predicate Matches(c: Chat, key: string) {
    c.id == key || c.altId == Some(key)
  }

  function MatchesKey(key: string): Chat -> bool {
    (c: Chat) => Matches(c, key)
  }

  /** `chats.map(chat => matches ? updated : chat)`. */
  function ReplaceMatching(chats: seq<Chat>, key: string, updated: Chat): (r: seq<Chat>)
    ensures |r| == |chats|
    ensures forall i :: 0 <= i < |chats| && Matches(chats[i], key) ==> r[i] == updated
    ensures forall i :: 0 <= i < |chats| && !Matches(chats[i], key) ==> r[i] == chats[i]
  {
    seq(|chats|, i requires 0 <= i < |chats| => if Matches(chats[i], key) then updated else chats[i])
  }

  /** Replacing is idempotent, whether or not the returned chat itself matches the key. */
  lemma ReplaceMatchingIdempotent(chats: seq<Chat>, key: string, updated: Chat)
    ensures ReplaceMatching(ReplaceMatching(chats, key, updated), key, updated) == ReplaceMatching(chats, key, updated)
  {
  }

  /** With no chat under the key, a successful `addMessage` leaves the list exactly as it was. */
  lemma ReplaceWithoutMatch(chats: seq<Chat>, key: string, updated: Chat)
    requires forall i :: 0 <= i < |chats| ==> !Matches(chats[i], key)
    ensures ReplaceMatching(chats, key, updated) == chats
  {
  }

  /** After a successful `addMessage`, `getChat` under the same key yields the chat the server returned,
      provided some chat matched before and the returned chat carries the key. */
  lemma {:induction false} FindAfterReplace(chats: seq<Chat>, key: string, updated: Chat)
    requires Matches(updated, key)
    ensures Query.Find(ReplaceMatching(chats, key, updated), MatchesKey(key))
         == if exists i :: 0 <= i < |chats| && Matches(chats[i], key) then Some(updated) else None
  {
    var r := ReplaceMatching(chats, key, updated);
    if exists i :: 0 <= i < |chats| && Matches(chats[i], key) {
      var i :| 0 <= i < |chats| && Matches(chats[i], key);
      assert MatchesKey(key)(r[i]);
      var k := Query.FindIndex(r, MatchesKey(key)).value;
      assert Matches(chats[k], key);
    } else {
      forall i | 0 <= i < |r|
        ensures !MatchesKey(key)(r[i])
      {
        assert r[i] == chats[i];
      }
    }
  }

  class ChatStore {
    var chats: seq<Chat>
    var activeChat: Option<string>

    constructor ()
      ensures chats == [] && activeChat == None
    {
      chats, activeChat := [], None;
    }

    /** `createChat`: the new chat goes in front and becomes the active one, and its id is returned;
        on failure neither field changes and the error is rethrown. */
    method CreateChat(response: Response<Chat>) returns (result: Result<string, string>)
      modifies this
      ensures response.Ok? ==>
        && result == Success(response.body.id)
        && chats == [response.body] + old(chats)
        && activeChat == Some(result.value)
      ensures !response.Ok? ==>
        && result == Failure(Thrown(response, CreateChatError))
        && chats == old(chats) && activeChat == old(activeChat)
    {
      if !response.Ok? {
        return Failure(Thrown(response, CreateChatError));
      }
      var chat := response.body;
      chats := [chat] + chats;
      activeChat := Some(chat.id);
      result := Success(chat.id);
    }

    /** `getChat`: the first cached chat under the key, or nothing when no chat carries it. */
    function GetChat(key: string): (r: Option<Chat>)
      reads this
      ensures r.None? <==> forall i :: 0 <= i < |chats| ==> !Matches(chats[i], key)
      ensures r.Some? ==> exists i :: 0 <= i < |chats| && chats[i] == r.value && Matches(r.value, key)
                                      && forall j :: 0 <= j < i ==> !Matches(chats[j], key)
    {
      var found := Query.FindIndex(chats, MatchesKey(key));
      if found.Some? then
        assert Matches(chats[found.value], key);
        Some(chats[found.value])
      else
        None
    }

    /** `addMessage`: on success every chat under the key is replaced by the returned chat in its own
        position, all others stay; on failure nothing changes and the error is rethrown. The active
        chat is never touched. */
    method AddMessage(key: string, response: Response<Chat>) returns (outcome: Outcome<string>)
      modifies this`chats
      ensures response.Ok? ==> outcome == Pass && chats == ReplaceMatching(old(chats), key, response.body)
      ensures !response.Ok? ==> outcome == Fail(Thrown(response, AddMessageError)) && chats == old(chats)
    {
      if !response.Ok? {
        return Fail(Thrown(response, AddMessageError));
      }
      chats := ReplaceMatching(chats, key, response.body);
      outcome := Pass;
    }

    /** `setActiveChat`: records the key as given, whether or not a cached chat carries it. */
    method SetActiveChat(key: string)
      modifies this`activeChat
      ensures activeChat == Some(key)
    {
      activeChat := Some(key);
    }

    /** `fetchChats`: the whole list is replaced on success; a failure is swallowed and leaves it alone. */
    method FetchChats(response: Response<seq<Chat>>)
      modifies this`chats
      ensures response.Ok? ==> chats == response.body
      ensures !response.Ok? ==> chats == old(chats)
    {
      if response.Ok? {
        chats := response.body;
      }
    }
  }
}
