/**
 * The notification slice, as its tests fix it: a list of toasts, each with
 * a generated id, added, removed by id and cleared; and the two helper
 * action creators that build success and error toasts.
 */
module Notifications {
  import opened Common
  import opened Lists

  datatype Kind = Success | Error | Info | Warning

  /** What a caller gives `addNotification`: everything but the id. */
  datatype NotificationInput = NotificationInput(
    kind: Kind,
    title: string,
    description: Option<string>,
    duration: Option<int>,
    category: Option<string>)

  datatype Notification = Notification(id: string, input: NotificationInput)

  /** `showSuccess(title, description, duration)`: the payload of a success toast. */
  function ShowSuccess(title: string, description: Option<string>, duration: Option<int>): (n: NotificationInput)
    ensures n.kind == Success && n.title == title && n.description == description && n.duration == duration
    ensures n.category.None?
  {
    NotificationInput(Success, title, description, duration, None)
  }

  /** `showError(title, description, duration, category)`: the payload of an error toast. */
  function ShowError(title: string, description: Option<string>, duration: Option<int>, category: Option<string>): (n: NotificationInput)
    ensures n.kind == Error && n.title == title && n.description == description
    ensures n.duration == duration && n.category == category
  {
    NotificationInput(Error, title, description, duration, category)
  }

  function LacksId(id: string): Notification -> bool
  {
    (n: Notification) => n.id != id
  }

  class NotificationList {
    var notifications: seq<Notification>

    /** The initial state: no notifications. */
    constructor ()
      ensures notifications == []
    {
      notifications := [];
    }

    /** `addNotification`: one notification is appended, with the generated id `id`. */
    method Add(input: NotificationInput, id: string)
      modifies this
      ensures notifications == old(notifications) + [Notification(id, input)]
    {
      notifications := notifications + [Notification(id, input)];
    }

    /** `removeNotification`: every notification with that id is dropped, the others are kept in order. */
    method Remove(id: string)
      modifies this
      ensures notifications == Filter(old(notifications), LacksId(id))
    {
      notifications := Filter(notifications, LacksId(id));
    }

    /** `clearNotifications`. */
    method Clear()
      modifies this
      ensures notifications == []
    {
      notifications := [];
    }
  }

  /** Removing a notification just added under a fresh id gives back the list it was added to. */
  lemma {:induction false} RemoveUndoesAdd(list: seq<Notification>, input: NotificationInput, id: string)
    requires forall k :: 0 <= k < |list| ==> list[k].id != id
    ensures Filter(list + [Notification(id, input)], LacksId(id)) == list
  {
    var s := list + [Notification(id, input)];
    assert s[..|s| - 1] == list;
    FilterAll(list, LacksId(id));
  }

  /** After a remove no notification carries that id, and one with another id is still there. */
  lemma RemoveKeepsOthers(list: seq<Notification>, id: string, i: nat)
    requires i < |list| && list[i].id != id
    ensures forall k :: 0 <= k < |Filter(list, LacksId(id))| ==> Filter(list, LacksId(id))[k].id != id
    ensures list[i] in Filter(list, LacksId(id))
  {
    FilterKeeps(list, LacksId(id), i);
  }
}
