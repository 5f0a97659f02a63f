/**
 * The permission editor of a role: the permissions loaded from the backend
 * projected to requests, the in-memory list the user edits by appending and
 * removing, and the add dialog that validates its three inputs.
 */
module Permissions {
  import opened Js

  /** A conditions object; `JSON.parse` is not modelled, so its entries are kept as text. */
  datatype Conditions = Conditions(entries: map<string, string>)

  /** A permission as the backend lists it for a role. */
  datatype Permission = Permission(
    id: string, role_id: string, action: string, resource: string,
    conditions: Option<Conditions>, created_at: string)

  /** `CreatePermissionRequest`: what the editor keeps and sends back. */
  datatype PermissionRequest = PermissionRequest(
    action: string, resource: string, conditions: Option<Conditions>)

  // ---------------------------------------------------------------------
  // The loaded-permission projection

  /** `({ action, resource, conditions }) => ({ action, resource, conditions })`. */
  function Project(p: Permission): PermissionRequest {
    PermissionRequest(p.action, p.resource, p.conditions)
  }

  /** `permissions.map(...)`: one request per permission, in the same order. */
  function ProjectAll(permissions: seq<Permission>): (requests: seq<PermissionRequest>)
    ensures |requests| == |permissions|
    ensures forall i :: 0 <= i < |permissions| ==>
      requests[i].action == permissions[i].action &&
      requests[i].resource == permissions[i].resource &&
      requests[i].conditions == permissions[i].conditions
  {
    seq(|permissions|, i requires 0 <= i < |permissions| => Project(permissions[i]))
  }

  /** The projection forgets the id, role and creation time: lists that agree on the rest project alike. */
  lemma {:induction false} ProjectAllIgnoresBookkeeping(xs: seq<Permission>, ys: seq<Permission>)
    requires |xs| == |ys|
    requires forall i :: 0 <= i < |xs| ==>
      xs[i].action == ys[i].action && xs[i].resource == ys[i].resource &&
      xs[i].conditions == ys[i].conditions
    ensures ProjectAll(xs) == ProjectAll(ys)
  {
    var p, q := ProjectAll(xs), ProjectAll(ys);
    forall i | 0 <= i < |p|
      ensures p[i] == q[i]
    {
      assert p[i] == PermissionRequest(xs[i].action, xs[i].resource, xs[i].conditions);
    }
  }

  /** Projecting a concatenation projects each part. */
  lemma {:induction false} ProjectAllConcat(xs: seq<Permission>, ys: seq<Permission>)
    ensures ProjectAll(xs + ys) == ProjectAll(xs) + ProjectAll(ys)
  {
    var whole, parts := ProjectAll(xs + ys), ProjectAll(xs) + ProjectAll(ys);
    forall i | 0 <= i < |whole|
      ensures whole[i] == parts[i]
    {
      if i < |xs| {
        assert (xs + ys)[i] == xs[i];
      } else {
        assert (xs + ys)[i] == ys[i - |xs|];
      }
    }
  }

  // ---------------------------------------------------------------------
  // Removing by index

  /**
   * `list.filter((_, i) => i !== index)`: walks the list keeping every
   * entry whose position is not `index`.
   */
  function WithoutIndex<T>(list: seq<T>, index: int): seq<T>
  {
    if list == [] then []
    else (if index == 0 then [] else [list[0]]) + WithoutIndex(list[1..], index - 1)
  }

  /**
   * Removing a valid position deletes exactly that entry and keeps the
   * others in order; any other index leaves the list as it was.
   */
  lemma {:induction false} WithoutIndexSpec<T>(list: seq<T>, index: int)
    ensures 0 <= index < |list| ==> WithoutIndex(list, index) == list[..index] + list[index + 1..]
    ensures !(0 <= index < |list|) ==> WithoutIndex(list, index) == list
  {
    if list != [] {
      WithoutIndexSpec(list[1..], index - 1);
      if index == 0 {
        assert list[..0] + list[1..] == list[1..];
      } else if 0 < index < |list| {
        assert list[..index] == [list[0]] + list[1..][..index - 1];
        assert list[index + 1..] == list[1..][index..];
      } else {
        assert list == [list[0]] + list[1..];
      }
    }
  }

  /** Removing the entry just appended gives the list back. */
  lemma {:induction false} RemoveUndoesAdd<T>(list: seq<T>, added: T)
    ensures WithoutIndex(list + [added], |list|) == list
  {
    WithoutIndexSpec(list + [added], |list|);
    assert (list + [added])[..|list|] == list;
  }

  // ---------------------------------------------------------------------
  // The editor

  class PermissionsEditor {
    /** `localPermissions`: the list being edited. */
    var localPermissions: seq<PermissionRequest>
    /** `isAddDialogOpen`. */
    var isAddDialogOpen: bool

    constructor ()
      ensures localPermissions == [] && !isAddDialogOpen
    {
      localPermissions := [];
      isAddDialogOpen := false;
    }

    /** The effect on `permissions`: once loaded (`None` while loading), the list is their projection. */
    method LoadPermissions(permissions: Option<seq<Permission>>)
      modifies this
      ensures permissions.Some? ==> localPermissions == ProjectAll(permissions.value)
      ensures permissions.None? ==> localPermissions == old(localPermissions)
      ensures isAddDialogOpen == old(isAddDialogOpen)
    {
      if permissions.Some? {
        localPermissions := ProjectAll(permissions.value);
      }
    }

    /** `handleAddPermission`: appends at the end. */
    method HandleAddPermission(newPermission: PermissionRequest)
      modifies this
      ensures localPermissions == old(localPermissions) + [newPermission]
      ensures |localPermissions| == |old(localPermissions)| + 1
      ensures localPermissions[..|old(localPermissions)|] == old(localPermissions)
      ensures isAddDialogOpen == old(isAddDialogOpen)
    {
      localPermissions := localPermissions + [newPermission];
      assert localPermissions[..|old(localPermissions)|] == old(localPermissions);
    }

    /** `handleRemovePermission`: drops position `index`, or nothing when it is out of range. */
    method HandleRemovePermission(index: int)
      modifies this
      ensures localPermissions == WithoutIndex(old(localPermissions), index)
      ensures 0 <= index < |old(localPermissions)| ==>
        localPermissions == old(localPermissions)[..index] + old(localPermissions)[index + 1..]
      ensures !(0 <= index < |old(localPermissions)|) ==> localPermissions == old(localPermissions)
      ensures isAddDialogOpen == old(isAddDialogOpen)
    {
      WithoutIndexSpec(localPermissions, index);
      localPermissions := WithoutIndex(localPermissions, index);
    }

    /** `onOpenChange` of the add dialog. */
    method SetAddDialogOpen(open: bool)
      modifies this
      ensures isAddDialogOpen == open && localPermissions == old(localPermissions)
    {
      isAddDialogOpen := open;
    }
  }

  // ---------------------------------------------------------------------
  // The add dialog

  /** How `handleAdd` ends. */
  datatype AddOutcome = MissingFields | InvalidJson | Added(request: PermissionRequest)

  /**
   * `AddPermissionDialog`: its three text inputs. `parse` stands for
   * `JSON.parse`, `None` when it throws.
   */
  class AddPermissionDialog {
    var action: string
    var resource: string
    var conditions: string

    constructor ()
      ensures action == "" && resource == "" && conditions == ""
    {
      action, resource, conditions := "", "", "";
    }

    /** The inputs' change handlers. */
    method ChangeInputs(newAction: string, newResource: string, newConditions: string)
      modifies this
      ensures action == newAction && resource == newResource && conditions == newConditions
    {
      action, resource, conditions := newAction, newResource, newConditions;
    }

    /**
     * `handleAdd`: an empty action or resource, or conditions that do not
     * parse, report an error and change nothing; otherwise the request
     * (with no conditions when the field is empty) is appended to the
     * editor's list, the inputs are cleared and the dialog closes.
     */
    method HandleAdd(editor: PermissionsEditor, parse: string -> Option<Conditions>)
      returns (outcome: AddOutcome)
      modifies this, editor
      ensures old(action) == "" || old(resource) == "" ==>
        outcome == MissingFields && unchanged(this) && unchanged(editor)
      ensures old(action) != "" && old(resource) != "" && old(conditions) != "" && parse(old(conditions)).None? ==>
        outcome == InvalidJson && unchanged(this) && unchanged(editor)
      ensures outcome.Added? <==>
        old(action) != "" && old(resource) != "" && (old(conditions) == "" || parse(old(conditions)).Some?)
      ensures outcome.Added? ==>
        outcome.request == PermissionRequest(old(action), old(resource),
          if old(conditions) == "" then None else parse(old(conditions))) &&
        editor.localPermissions == old(editor.localPermissions) + [outcome.request] &&
        !editor.isAddDialogOpen &&
        action == "" && resource == "" && conditions == ""
    {
      if action == "" || resource == "" {
        return MissingFields;
      }
      var parsedConditions: Option<Conditions> := None;
      if conditions != "" {
        parsedConditions := parse(conditions);
        if parsedConditions.None? {
          return InvalidJson;
        }
      }
      var request := PermissionRequest(action, resource, parsedConditions);
      editor.HandleAddPermission(request);
      action := "";
      resource := "";
      conditions := "";
      editor.SetAddDialogOpen(false);
      outcome := Added(request);
    }
  }

  /** A dialog that added something can be undone by removing the last entry of the editor's list. */
  lemma {:induction false} AddedEntryIsLast(before: seq<PermissionRequest>, request: PermissionRequest)
    ensures WithoutIndex(before + [request], |before|) == before
    ensures (before + [request])[|before|] == request
  {
    RemoveUndoesAdd(before, request);
  }
}
