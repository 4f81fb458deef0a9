/**
 * The chat search slice: whether the search panel is open, the query typed
 * into it and the chats that match; closing the panel forgets the search.
 */
module ChatSearch {

  /** A sidebar chat entry, by the fields a search result shows. */
  datatype ChatItem = ChatItem(id: string, title: string)

  datatype SearchState = SearchState(searchOpen: bool, searchQuery: string, filteredChats: seq<ChatItem>)

  /** The initial state: closed, no query, no results. */
  const Initial := SearchState(false, "", [])

  /** `setSearchOpen`: opening changes only the flag; closing also empties the query and the results. */
  function SetOpen(s: SearchState, open: bool): (r: SearchState)
    ensures r.searchOpen == open
    ensures open ==> r.searchQuery == s.searchQuery && r.filteredChats == s.filteredChats
    ensures !open ==> r == Initial
  {
    if open then s.(searchOpen := true) else SearchState(false, "", [])
  }

  /** Closing forgets the search: whatever was typed, closing and reopening shows an empty panel. */
  lemma CloseThenOpenIsEmpty(s: SearchState)
    ensures SetOpen(SetOpen(s, false), true) == SearchState(true, "", [])
    ensures SetOpen(SetOpen(s, false), false) == SetOpen(s, false)
  {
  }

  class ChatSearchSlice {
    var searchOpen: bool
    var searchQuery: string
    var filteredChats: seq<ChatItem>

    function State(): SearchState
      reads this
    {
      SearchState(searchOpen, searchQuery, filteredChats)
    }

    constructor ()
      ensures State() == Initial
    {
      searchOpen := false;
      searchQuery := "";
      filteredChats := [];
    }

    /** `setSearchOpen`. */
    method SetSearchOpen(open: bool)
      modifies this
      ensures State() == SetOpen(old(State()), open)
    {
      searchOpen := open;
      if !open {
        searchQuery := "";
        filteredChats := [];
      }
    }

    /** `setSearchQuery`: only the query changes. */
    method SetSearchQuery(query: string)
      modifies this
      ensures State() == old(State()).(searchQuery := query)
    {
      searchQuery := query;
    }

    /** `setFilteredChats`: only the results change. */
    method SetFilteredChats(chats: seq<ChatItem>)
      modifies this
      ensures State() == old(State()).(filteredChats := chats)
    {
      filteredChats := chats;
    }
  }
}
