/**
 * The workspaces slice, as its tests fix it: the workspace list and the
 * selected workspace, whose id is written to the `lastWorkspaceId`
 * application setting and read back on the next fetch.
 */
module Workspaces {
  import opened Common

  datatype Workspace = Workspace(id: string, name: string, createdAt: int)

  /** A row of the workspaces table. */
  datatype DbWorkspace = DbWorkspace(id: string, name: string, created_at: int)

  /** The key the selection is stored under. */
  const LastWorkspaceKey := "lastWorkspaceId"

  /** The row conversion of `fetchWorkspaces`: one workspace per row, in order, with id and name copied. */
  function FromDbAll(rows: seq<DbWorkspace>): (r: seq<Workspace>)
    ensures |r| == |rows|
    ensures forall k :: 0 <= k < |rows| ==> r[k].id == rows[k].id && r[k].name == rows[k].name && r[k].createdAt == rows[k].created_at
  {
    seq(|rows|, k requires 0 <= k < |rows| => Workspace(rows[k].id, rows[k].name, rows[k].created_at))
  }

  /** Ids of a list of workspaces. */
  function Ids(list: seq<Workspace>): (r: set<string>)
    ensures forall k :: 0 <= k < |list| ==> list[k].id in r
    ensures forall id :: id in r ==> exists k :: 0 <= k < |list| && list[k].id == id
  {
    set k | 0 <= k < |list| :: list[k].id
  }

  class WorkspacesSlice {
    var workspaces: seq<Workspace>
    var selectedWorkspaceId: Option<string>
    var loading: bool
    var error: Option<string>

    /** The initial state: no workspaces, no selection, not loading, no error. */
    constructor ()
      ensures workspaces == [] && selectedWorkspaceId.None? && !loading && error.None?
    {
      workspaces := [];
      selectedWorkspaceId := None;
      loading := false;
      error := None;
    }

    /** `setSelectedWorkspace`: the selection changes and the id is written to the `lastWorkspaceId` setting. */
    method SetSelectedWorkspace(id: string) returns (write: SettingWrite)
      modifies this
      ensures selectedWorkspaceId == Some(id) && write == SettingWrite(LastWorkspaceKey, id)
      ensures workspaces == old(workspaces) && loading == old(loading) && error == old(error)
    {
      selectedWorkspaceId := Some(id);
      write := SettingWrite(LastWorkspaceKey, id);
    }

    /** `fetchWorkspaces.fulfilled`: the rows replace the list and the stored id, when there is one, is selected. */
    method FetchFulfilled(rows: seq<DbWorkspace>, lastWorkspaceId: Option<string>)
      modifies this
      ensures workspaces == FromDbAll(rows)
      ensures lastWorkspaceId.Some? ==> selectedWorkspaceId == lastWorkspaceId
      ensures lastWorkspaceId.None? ==> selectedWorkspaceId == old(selectedWorkspaceId)
      ensures !loading && error == old(error)
    {
      workspaces := FromDbAll(rows);
      if lastWorkspaceId.Some? {
        selectedWorkspaceId := lastWorkspaceId;
      }
      loading := false;
    }

    /** `createWorkspace.fulfilled`: the new workspace (its id from `crypto.randomUUID`) is appended and selected. */
    method CreateFulfilled(workspace: Workspace)
      modifies this
      ensures workspaces == old(workspaces) + [workspace]
      ensures selectedWorkspaceId == Some(workspace.id)
      ensures loading == old(loading) && error == old(error)
    {
      workspaces := workspaces + [workspace];
      selectedWorkspaceId := Some(workspace.id);
    }
  }

  /** After a create the selection names a workspace of the list, and every earlier workspace is still listed. */
  lemma CreateSelectsListed(list: seq<Workspace>, workspace: Workspace)
    ensures workspace.id in Ids(list + [workspace])
    ensures Ids(list) <= Ids(list + [workspace])
  {
    var after := list + [workspace];
    assert after[|list|] == workspace;
    forall id | id in Ids(list)
      ensures id in Ids(after)
    {
      var k :| 0 <= k < |list| && list[k].id == id;
      assert after[k] == list[k];
    }
  }

  /** A fetch whose stored id is among the fetched rows leaves the selection naming a listed workspace. */
  lemma FetchSelectsListed(rows: seq<DbWorkspace>, stored: string, i: nat)
    requires i < |rows| && rows[i].id == stored
    ensures stored in Ids(FromDbAll(rows))
  {
    assert FromDbAll(rows)[i].id == stored;
  }
}
