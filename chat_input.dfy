/**
 * The chat composer: the guard on submitting, the ordered send-then-clear sequence, the Enter-key
 * rule and the send button's enablement.
 */
module ChatInput {
  import opened Wrappers
  import opened Text
  import ClientStore

  /** The calls the composer makes, in order: the store's `addMessage` and the parent's `onSend`. */
  datatype Event = AddMessageCall(chatId: string, content: string, role: string) | OnSend(content: string)

  class Composer {
    const chatId: string
    const disabled: bool
    var message: string
    var events: seq<Event>

    constructor (chatId: string, disabled: bool)
      ensures this.chatId == chatId && this.disabled == disabled
      ensures message == [] && events == []
    {
      this.chatId := chatId;
      this.disabled := disabled;
      message, events := [], [];
    }

    /** `disabled || !message.trim()`: the send button is greyed out exactly when the composer is
        disabled or the text is whitespace only. */
    function SendDisabled(): (r: bool)
      reads this
      ensures r <==> disabled || IsBlank(message)
    {
      disabled || Trim(message) == []
    }

    /** `handleSubmit`: when sending is disabled nothing happens. Otherwise the untrimmed text goes to
        `addMessage` with the user role; if that throws, the error propagates before `onSend` and the
        text stays; if not, `onSend` gets the same text and the box is cleared. */
    method HandleSubmit(store: ClientStore.ChatStore, response: ClientStore.Response<ClientStore.Chat>)
      returns (outcome: Outcome<string>)
      modifies this, store`chats
      ensures old(SendDisabled()) ==>
        outcome == Pass && message == old(message) && events == old(events) && store.chats == old(store.chats)
      ensures !old(SendDisabled()) && response.Ok? ==>
        && outcome == Pass
        && events == old(events) + [AddMessageCall(chatId, old(message), "user"), OnSend(old(message))]
        && message == []
        && store.chats == ClientStore.ReplaceMatching(old(store.chats), chatId, response.body)
      ensures !old(SendDisabled()) && !response.Ok? ==>
        && outcome == Fail(ClientStore.Thrown(response, ClientStore.AddMessageError))
        && events == old(events) + [AddMessageCall(chatId, old(message), "user")]
        && message == old(message)
        && store.chats == old(store.chats)
    {
      if SendDisabled() {
        return Pass;
      }
      var text := message;
      var call := AddMessageCall(chatId, text, "user");
      outcome := store.AddMessage(chatId, response);
      if outcome.Fail? {
        events := events + [call];
      } else {
        events := events + [call, OnSend(text)];
        message := [];
      }
    }

    /** The text area's key handler: Enter without Shift submits; any other key, Shift+Enter included,
        leaves everything as it was here. */
    method KeyDown(key: string, shift: bool, store: ClientStore.ChatStore, response: ClientStore.Response<ClientStore.Chat>)
      returns (outcome: Outcome<string>)
      modifies this, store`chats
      ensures !(key == "Enter" && !shift) ==>
        outcome == Pass && message == old(message) && events == old(events) && store.chats == old(store.chats)
      ensures key == "Enter" && !shift && old(SendDisabled()) ==>
        outcome == Pass && message == old(message) && events == old(events) && store.chats == old(store.chats)
      ensures key == "Enter" && !shift && !old(SendDisabled()) && response.Ok? ==>
        && outcome == Pass
        && events == old(events) + [AddMessageCall(chatId, old(message), "user"), OnSend(old(message))]
        && message == []
        && store.chats == ClientStore.ReplaceMatching(old(store.chats), chatId, response.body)
      ensures key == "Enter" && !shift && !old(SendDisabled()) && !response.Ok? ==>
        && outcome == Fail(ClientStore.Thrown(response, ClientStore.AddMessageError))
        && events == old(events) + [AddMessageCall(chatId, old(message), "user")]
        && message == old(message)
        && store.chats == old(store.chats)
    {
      if key == "Enter" && !shift {
        outcome := HandleSubmit(store, response);
      } else {
        outcome := Pass;
      }
    }
  }
}
