/**
 * The role create screen: it loads the permission catalogue, edits a
 * `RoleForm`, posts it, and after a successful post empties the form.
 */
module RoleCreate {
  import opened Js
  import opened Http
  import opened RoleForms

  const LoadPermissionsFallback := "Failed to load permissions"
  const CreatedMessage := "Role created successfully"
  const CreateFallback := "Failed to create role"

  class RoleCreatePage {
    var form: RoleForm
    var catalogue: seq<Permission>
    var loadingPerms: bool
    var saving: bool
    var message: string
    var error: string

    /** The initial `useState` values. */
    constructor ()
      ensures form == EmptyForm && catalogue == []
      ensures !loadingPerms && !saving && message == "" && error == ""
    {
      form, catalogue := EmptyForm, [];
      loadingPerms, saving := false, false;
      message, error := "", "";
    }

    /**
     * `loadPermissions` on mount, settled with `reply`: the error is cleared
     * first, a success replaces the catalogue, a failure keeps it and shows the
     * server's message or the fallback, and the spinner ends either way.
     */
    method LoadPermissions(reply: Response<seq<Permission>>)
      modifies this
      ensures !loadingPerms
      ensures reply.Ok? ==> catalogue == reply.data && error == ""
      ensures reply.Failed? ==> catalogue == old(catalogue) && error == ErrorText(reply.message, LoadPermissionsFallback)
      ensures error != "" <==> reply.Failed?
      ensures form == old(form) && saving == old(saving) && message == old(message)
    {
      loadingPerms := true;
      error := "";
      match reply {
        case Ok(data) =>
          catalogue := data;
        case Failed(msg) =>
          error := ErrorText(msg, LoadPermissionsFallback);
      }
      loadingPerms := false;
    }

    /** A checkbox click: the name leaves the form when it was ticked and joins it at the end otherwise. */
    method TogglePermission(name: string)
      modifies this
      ensures form.permissions == Toggled(old(form.permissions), name)
      ensures name in form.permissions <==> name !in old(form.permissions)
      ensures form.name == old(form.name) && form.key == old(form.key)
      ensures catalogue == old(catalogue) && loadingPerms == old(loadingPerms) && saving == old(saving)
      ensures message == old(message) && error == old(error)
    {
      ToggleFlipsMembership(form.permissions, name);
      form := form.(permissions := Toggled(form.permissions, name));
    }

    /** Typing in the name or key input. */
    method HandleChange(field: RoleField, value: string)
      modifies this
      ensures form == WithField(old(form), field, value)
      ensures catalogue == old(catalogue) && loadingPerms == old(loadingPerms) && saving == old(saving)
      ensures message == old(message) && error == old(error)
    {
      form := WithField(form, field, value);
    }

    /**
     * Submitting the form, settled with `reply` to the `POST /roles`: exactly
     * one banner shows afterwards; a success empties the form, a failure keeps
     * what was typed.
     */
    method HandleSubmit(reply: Response<()>)
      modifies this
      ensures !saving
      ensures (message != "") != (error != "")
      ensures reply.Ok? ==> message == CreatedMessage && error == "" && form == EmptyForm
      ensures reply.Failed? ==> message == "" && error == ErrorText(reply.message, CreateFallback) && form == old(form)
      ensures catalogue == old(catalogue) && loadingPerms == old(loadingPerms)
    {
      error := "";
      message := "";
      saving := true;
      match reply {
        case Ok(_) =>
          message := CreatedMessage;
          form := EmptyForm;
        case Failed(msg) =>
          error := ErrorText(msg, CreateFallback);
      }
      saving := false;
    }

    /** The catalogue split by group, as the permissions grid shows it. */
    method GroupedPermissions() returns (order: seq<string>, buckets: map<string, seq<Permission>>)
      ensures Distinct(order) && (forall g :: g in order <==> g in buckets)
      ensures buckets.Keys == GroupsOf(catalogue)
      ensures forall g :: g in buckets ==> buckets[g] == Bucket(catalogue, g)
      ensures order == FirstSeen(catalogue)
    {
      order, buckets := GroupByGroup(catalogue);
    }
  }
}
