/** The user's chat page: the conversation list, the dialog that starts a
    chat with a dermatologist, and the selected conversation. */
module UserChat {
  import opened Common
  import opened Text
  import opened Types
  import opened ChatList

  /** The chat `handleStartChat` selects: it looks the new id up in `chats`
      as captured when the handler was created, that is, the list from before
      `createChat` and the refetch; `after`, the refetched list, plays no part. */
  function StartedChat(before: seq<Chat>, after: seq<Chat>, chatId: string): (r: Option<Chat>)
    ensures r.Some? ==> r.value in before && r.value.id == chatId
    ensures r.None? <==> forall c :: c in before ==> c.id != chatId
  {
    FindById(before, chatId)
  }

  /** A chat that did not exist before the call is never selected, even
      when the refetch returns it. */
  lemma NewChatNeverSelected(before: seq<Chat>, after: seq<Chat>, chatId: string)
    requires forall c :: c in before ==> c.id != chatId
    ensures StartedChat(before, after, chatId) == None
  {
  }

  class Page {
    var chats: seq<Chat>
    var searchTerm: string
    var selectedChat: Option<Chat>
    var dermatologists: seq<User>
    var isNewChatDialogOpen: bool
    /** The dermatologist ids sent to `createChat`, in order. */
    var created: seq<string>
    var toasts: seq<string>

    constructor()
      ensures chats == [] && searchTerm == "" && selectedChat == None && dermatologists == []
      ensures !isNewChatDialogOpen && created == [] && toasts == []
    {
      chats := [];
      searchTerm := "";
      selectedChat := None;
      dermatologists := [];
      isNewChatDialogOpen := false;
      created := [];
      toasts := [];
    }

    /** `filteredChats`. */
    function Filtered(): (r: seq<Chat>)
      reads this
      ensures forall c :: c in r <==> c in chats && Includes(c.dermatologist.name, searchTerm)
      ensures IsSubsequence(r, chats)
    {
      ByDermatologist(chats, searchTerm)
    }

    /** `fetchChats`: a failure keeps the list and shows a toast. */
    method FetchChats(outcome: Result<seq<Chat>>)
      modifies this
      ensures chats == (if outcome.Ok? then outcome.value else old(chats))
      ensures toasts == old(toasts) + (if outcome.Ok? then [] else ["Failed to load chats"])
      ensures searchTerm == old(searchTerm) && selectedChat == old(selectedChat) && dermatologists == old(dermatologists)
      ensures isNewChatDialogOpen == old(isNewChatDialogOpen) && created == old(created)
    {
      if outcome.Ok? {
        chats := outcome.value;
      } else {
        toasts := toasts + ["Failed to load chats"];
      }
    }

    /** `fetchDermatologists`. */
    method FetchDermatologists(outcome: Result<seq<User>>)
      modifies this
      ensures dermatologists == (if outcome.Ok? then outcome.value else old(dermatologists))
      ensures toasts == old(toasts) + (if outcome.Ok? then [] else ["Failed to load dermatologists"])
      ensures chats == old(chats) && searchTerm == old(searchTerm) && selectedChat == old(selectedChat)
      ensures isNewChatDialogOpen == old(isNewChatDialogOpen) && created == old(created)
    {
      if outcome.Ok? {
        dermatologists := outcome.value;
      } else {
        toasts := toasts + ["Failed to load dermatologists"];
      }
    }

    /** A row of the list, or `setSelectedChat(null)`. */
    method Select(c: Option<Chat>)
      modifies this
      ensures selectedChat == c
      ensures chats == old(chats) && searchTerm == old(searchTerm) && dermatologists == old(dermatologists)
      ensures isNewChatDialogOpen == old(isNewChatDialogOpen) && created == old(created) && toasts == old(toasts)
    {
      selectedChat := c;
    }

    method SetSearch(term: string)
      modifies this
      ensures searchTerm == term
      ensures chats == old(chats) && selectedChat == old(selectedChat) && dermatologists == old(dermatologists)
      ensures isNewChatDialogOpen == old(isNewChatDialogOpen) && created == old(created) && toasts == old(toasts)
    {
      searchTerm := term;
    }

    method DialogChange(open: bool)
      modifies this
      ensures isNewChatDialogOpen == open
      ensures chats == old(chats) && searchTerm == old(searchTerm) && selectedChat == old(selectedChat)
      ensures dermatologists == old(dermatologists) && created == old(created) && toasts == old(toasts)
    {
      isNewChatDialogOpen := open;
    }

    /** A dialog row's "Start Chat": `createdId` is `createChat`'s outcome
        (the new chat's id) and `refetched` that of the `fetchChats` it awaits.
        The id is looked up in the list from before the call; if it is not
        there the selection stays. The dialog closes on success either way. */
    method StartChat(dermatologistId: string, createdId: Result<string>, refetched: Result<seq<Chat>>)
      modifies this
      ensures created == old(created) + [dermatologistId]
      ensures createdId.Err? ==>
        chats == old(chats) && selectedChat == old(selectedChat)
        && isNewChatDialogOpen == old(isNewChatDialogOpen) && toasts == old(toasts) + ["Failed to start chat"]
      ensures createdId.Ok? ==>
        chats == (if refetched.Ok? then refetched.value else old(chats))
        && !isNewChatDialogOpen
        && toasts == old(toasts) + (if refetched.Ok? then [] else ["Failed to load chats"]) + ["Chat started successfully"]
      ensures createdId.Ok? ==>
        selectedChat == (var found := StartedChat(old(chats), chats, createdId.value);
                         if found.Some? then found else old(selectedChat))
      ensures createdId.Ok? && (forall c :: c in old(chats) ==> c.id != createdId.value) ==>
        selectedChat == old(selectedChat)
      ensures searchTerm == old(searchTerm) && dermatologists == old(dermatologists)
    {
      created := created + [dermatologistId];
      if createdId.Err? {
        toasts := toasts + ["Failed to start chat"];
        return;
      }
      var captured := chats;
      FetchChats(refetched);
      var found := StartedChat(captured, chats, createdId.value);
      if found.Some? {
        selectedChat := found;
      }
      isNewChatDialogOpen := false;
      toasts := toasts + ["Chat started successfully"];
    }
  }
}
