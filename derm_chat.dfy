/** The dermatologist's chat page: the conversation list, the selected
    conversation, and the narrow-screen layout that shows one of the two. */
module DermChat {
  import opened Common
  import opened Text
  import opened Types
  import opened ChatList

  /** The breakpoint of the resize handler, in CSS pixels. */
  const MobileBreakpoint: int := 768

  function IsMobile(innerWidth: int): bool {
    innerWidth < MobileBreakpoint
  }

  /** The list is hidden only on a narrow screen with a chat open. */
  function ListVisible(isMobileView: bool, selected: Option<Chat>): bool {
    !(isMobileView && selected.Some?)
  }

  /** The conversation pane is hidden only on a narrow screen with nothing open. */
  function WindowVisible(isMobileView: bool, selected: Option<Chat>): bool {
    !(isMobileView && selected.None?)
  }

  /** "Back to chats" is rendered on a narrow screen with a chat open. */
  function ShowsBack(isMobileView: bool, selected: Option<Chat>): bool {
    isMobileView && selected.Some?
  }

  /** Something is always on screen; on a narrow screen exactly one pane,
      and on a wide one both. */
  lemma LayoutShowsOnePane(isMobileView: bool, selected: Option<Chat>)
    ensures ListVisible(isMobileView, selected) || WindowVisible(isMobileView, selected)
    ensures isMobileView ==> ListVisible(isMobileView, selected) != WindowVisible(isMobileView, selected)
    ensures !isMobileView ==> ListVisible(isMobileView, selected) && WindowVisible(isMobileView, selected)
    ensures ShowsBack(isMobileView, selected) <==> !ListVisible(isMobileView, selected)
  {
  }

  class Page {
    var chats: seq<Chat>
    var searchTerm: string
    var selectedChat: Option<Chat>
    var isMobileView: bool
    var toasts: seq<string>

    constructor()
      ensures chats == [] && searchTerm == "" && selectedChat == None && !isMobileView && toasts == []
    {
      chats := [];
      searchTerm := "";
      selectedChat := None;
      isMobileView := false;
      toasts := [];
    }

    /** `filteredChats`. */
    function Filtered(): (r: seq<Chat>)
      reads this
      ensures forall c :: c in r <==> c in chats && Includes(c.user.name, searchTerm)
      ensures IsSubsequence(r, chats)
    {
      ByPatient(chats, searchTerm)
    }

    /** `handleResize`, run on mount and on every `resize` event. */
    method Resize(innerWidth: int)
      modifies this
      ensures isMobileView == IsMobile(innerWidth) && (isMobileView <==> innerWidth < 768)
      ensures chats == old(chats) && searchTerm == old(searchTerm) && selectedChat == old(selectedChat) && toasts == old(toasts)
    {
      isMobileView := IsMobile(innerWidth);
    }

    method FetchChats(outcome: Result<seq<Chat>>)
      modifies this
      ensures chats == (if outcome.Ok? then outcome.value else old(chats))
      ensures toasts == old(toasts) + (if outcome.Ok? then [] else ["Failed to load chats"])
      ensures searchTerm == old(searchTerm) && selectedChat == old(selectedChat) && isMobileView == old(isMobileView)
    {
      if outcome.Ok? {
        chats := outcome.value;
      } else {
        toasts := toasts + ["Failed to load chats"];
      }
    }

    method SetSearch(term: string)
      modifies this
      ensures searchTerm == term
      ensures chats == old(chats) && selectedChat == old(selectedChat) && isMobileView == old(isMobileView) && toasts == old(toasts)
    {
      searchTerm := term;
    }

    /** A row of the list: on a narrow screen the conversation replaces the list. */
    method Select(c: Chat)
      modifies this
      ensures selectedChat == Some(c)
      ensures WindowVisible(isMobileView, selectedChat)
      ensures isMobileView ==> !ListVisible(isMobileView, selectedChat)
      ensures chats == old(chats) && searchTerm == old(searchTerm) && isMobileView == old(isMobileView) && toasts == old(toasts)
    {
      selectedChat := Some(c);
    }

    /** "Back to chats", rendered only when it is shown: the list returns. */
    method Back()
      requires ShowsBack(isMobileView, selectedChat)
      modifies this
      ensures selectedChat == None
      ensures ListVisible(isMobileView, selectedChat) && !WindowVisible(isMobileView, selectedChat)
      ensures chats == old(chats) && searchTerm == old(searchTerm) && isMobileView == old(isMobileView) && toasts == old(toasts)
    {
      selectedChat := None;
    }
  }
}
