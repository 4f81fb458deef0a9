/**
 * The chats slice, as its tests fix it: the chat list of each workspace and
 * the one selected chat, whose id is also written to the `lastChatId`
 * application setting so that the next fetch can restore it.
 */
module Chats {
  import opened Common
  import opened Lists

  datatype Chat = Chat(id: string, title: string, timestamp: int, lastMessage: Option<string>)

  /** A row of the chats table. */
  datatype DbChat = DbChat(id: string, workspace_id: string, title: string, last_message: Option<string>, updated_at: int)

  /** The key the selection is stored under. */
  const LastChatKey := "lastChatId"

  /**
   * The row conversion of `fetchChats`: id, title and last message are
   * copied; the timestamp is `toTimestamp` of the row's update time.
   */
  function FromDb(db: DbChat, toTimestamp: int -> int): (c: Chat)
    ensures c.id == db.id && c.title == db.title && c.lastMessage == db.last_message
    ensures c.timestamp == toTimestamp(db.updated_at)
  {
    Chat(db.id, db.title, toTimestamp(db.updated_at), db.last_message)
  }

  function FromDbAll(rows: seq<DbChat>, toTimestamp: int -> int): (r: seq<Chat>)
    ensures |r| == |rows| && forall k :: 0 <= k < |rows| ==> r[k] == FromDb(rows[k], toTimestamp)
  {
    seq(|rows|, k requires 0 <= k < |rows| => FromDb(rows[k], toTimestamp))
  }

  /** Every chat with that id gets the new title; every other chat is kept. */
  function Rename(chats: seq<Chat>, id: string, title: string): (r: seq<Chat>)
    ensures |r| == |chats|
    ensures forall k :: 0 <= k < |chats| && chats[k].id == id ==> r[k] == chats[k].(title := title)
    ensures forall k :: 0 <= k < |chats| && chats[k].id != id ==> r[k] == chats[k]
  {
    seq(|chats|, k requires 0 <= k < |chats| => if chats[k].id == id then chats[k].(title := title) else chats[k])
  }

  /** The rename applied to the list of every workspace. */
  function RenameEverywhere(byWorkspace: map<string, seq<Chat>>, id: string, title: string): (r: map<string, seq<Chat>>)
    ensures r.Keys == byWorkspace.Keys
    ensures forall w :: w in byWorkspace ==> r[w] == Rename(byWorkspace[w], id, title)
  {
    map w | w in byWorkspace :: Rename(byWorkspace[w], id, title)
  }

  /** Renaming twice to the same title is renaming once, and a renamed chat is found under its new title. */
  lemma RenameIdempotent(chats: seq<Chat>, id: string, title: string)
    ensures Rename(Rename(chats, id, title), id, title) == Rename(chats, id, title)
    ensures forall k :: 0 <= k < |chats| && chats[k].id == id ==> Rename(chats, id, title)[k].title == title
  {
    var once := Rename(chats, id, title);
    assert forall k :: 0 <= k < |chats| ==> Rename(once, id, title)[k] == once[k];
  }

  function LacksId(id: string): Chat -> bool
  {
    (c: Chat) => c.id != id
  }

  /** The list a workspace holds, the empty list when it has none yet. */
  function ListOf(byWorkspace: map<string, seq<Chat>>, workspaceId: string): seq<Chat>
  {
    if workspaceId in byWorkspace then byWorkspace[workspaceId] else []
  }

  class ChatsSlice {
    var chatsByWorkspaceId: map<string, seq<Chat>>
    var selectedChatId: Option<string>
    var loading: bool
    var error: Option<string>

    /** The initial state: no lists, no selection, not loading, no error. */
    constructor ()
      ensures chatsByWorkspaceId == map[] && selectedChatId.None? && !loading && error.None?
    {
      chatsByWorkspaceId := map[];
      selectedChatId := None;
      loading := false;
      error := None;
    }

    /** `setChats`: the list is stored under its workspace. */
    method SetChats(workspaceId: string, chats: seq<Chat>)
      modifies this
      ensures chatsByWorkspaceId == old(chatsByWorkspaceId)[workspaceId := chats]
      ensures selectedChatId == old(selectedChatId) && loading == old(loading) && error == old(error)
    {
      chatsByWorkspaceId := chatsByWorkspaceId[workspaceId := chats];
    }

    /** `setSelectedChat`: the selection changes and the id is written to the `lastChatId` setting. */
    method SetSelectedChat(chatId: string) returns (write: SettingWrite)
      modifies this
      ensures selectedChatId == Some(chatId) && write == SettingWrite(LastChatKey, chatId)
      ensures chatsByWorkspaceId == old(chatsByWorkspaceId) && loading == old(loading) && error == old(error)
    {
      selectedChatId := Some(chatId);
      write := SettingWrite(LastChatKey, chatId);
    }

    /** `deleteChat`: the chat leaves its workspace's list, and the selection is cleared when it was that chat. */
    method DeleteChat(workspaceId: string, chatId: string)
      modifies this
      ensures workspaceId in old(chatsByWorkspaceId) ==>
        chatsByWorkspaceId == old(chatsByWorkspaceId)[workspaceId := Filter(old(chatsByWorkspaceId)[workspaceId], LacksId(chatId))]
      ensures workspaceId !in old(chatsByWorkspaceId) ==> chatsByWorkspaceId == old(chatsByWorkspaceId)
      ensures old(selectedChatId) == Some(chatId) ==> selectedChatId.None?
      ensures old(selectedChatId) != Some(chatId) ==> selectedChatId == old(selectedChatId)
      ensures loading == old(loading) && error == old(error)
    {
      if workspaceId in chatsByWorkspaceId {
        chatsByWorkspaceId := chatsByWorkspaceId[workspaceId := Filter(chatsByWorkspaceId[workspaceId], LacksId(chatId))];
      }
      if selectedChatId == Some(chatId) {
        selectedChatId := None;
      }
    }

    /**
     * `fetchChats.fulfilled`: the converted rows become the workspace's list
     * and the stored `lastChatId`, when there is one, becomes the selection.
     */
    method FetchFulfilled(workspaceId: string, rows: seq<DbChat>, lastChatId: Option<string>, toTimestamp: int -> int)
      modifies this
      ensures chatsByWorkspaceId == old(chatsByWorkspaceId)[workspaceId := FromDbAll(rows, toTimestamp)]
      ensures lastChatId.Some? ==> selectedChatId == lastChatId
      ensures lastChatId.None? ==> selectedChatId == old(selectedChatId)
      ensures !loading && error == old(error)
    {
      chatsByWorkspaceId := chatsByWorkspaceId[workspaceId := FromDbAll(rows, toTimestamp)];
      if lastChatId.Some? {
        selectedChatId := lastChatId;
      }
      loading := false;
    }

    /** `createChat.fulfilled`: the new chat (its id from `crypto.randomUUID`) is appended and selected. */
    method CreateFulfilled(workspaceId: string, chat: Chat)
      modifies this
      ensures chatsByWorkspaceId == old(chatsByWorkspaceId)[workspaceId := ListOf(old(chatsByWorkspaceId), workspaceId) + [chat]]
      ensures selectedChatId == Some(chat.id)
      ensures loading == old(loading) && error == old(error)
    {
      chatsByWorkspaceId := chatsByWorkspaceId[workspaceId := ListOf(chatsByWorkspaceId, workspaceId) + [chat]];
      selectedChatId := Some(chat.id);
    }

    /** `updateChatTitle.fulfilled`: the chat is renamed in every workspace that lists it. */
    method UpdateTitleFulfilled(id: string, title: string)
      modifies this
      ensures chatsByWorkspaceId == RenameEverywhere(old(chatsByWorkspaceId), id, title)
      ensures selectedChatId == old(selectedChatId) && loading == old(loading) && error == old(error)
    {
      chatsByWorkspaceId := RenameEverywhere(chatsByWorkspaceId, id, title);
    }
  }

  /** Deleting a chat just created with a fresh id gives back the list it was added to. */
  lemma {:induction false} DeleteUndoesCreate(chats: seq<Chat>, chat: Chat)
    requires forall k :: 0 <= k < |chats| ==> chats[k].id != chat.id
    ensures Filter(chats + [chat], LacksId(chat.id)) == chats
  {
    var s := chats + [chat];
    assert s[..|s| - 1] == chats;
    FilterAll(chats, LacksId(chat.id));
  }

  /** After a delete no chat with that id is left in the workspace, and every other chat still is. */
  lemma DeleteRemovesOnlyThatChat(chats: seq<Chat>, chatId: string, i: nat)
    requires i < |chats| && chats[i].id != chatId
    ensures forall k :: 0 <= k < |Filter(chats, LacksId(chatId))| ==> Filter(chats, LacksId(chatId))[k].id != chatId
    ensures chats[i] in Filter(chats, LacksId(chatId))
  {
    FilterKeeps(chats, LacksId(chatId), i);
  }
}
