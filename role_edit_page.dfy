/**
 * The role edit screen: on mount it loads the permission catalogue and the
 * role concurrently, fills the form from the role with defaults for missing
 * fields, and after a successful save hands the updated role to the session
 * so that a signed-in user holding that role gains its new permissions.
 */
module RoleEdit {
  import opened Js
  import opened Http
  import opened RoleForms
  import Auth

  const LoadPermissionsFallback := "Failed to load permissions"
  const LoadRoleFallback := "Failed to load role"
  const UpdatedMessage := "Role updated successfully"
  const UpdateFallback := "Failed to update role"

  /** `{name: role.name || '', key: role.key || '', permissions: role.permissions || []}`. */
  function LoadedForm(role: Auth.Role): RoleForm {
    RoleForm(
      if Truthy(role.name) then role.name.value else "",
      if Truthy(role.key) then role.key.value else "",
      role.permissions.GetOr([]))
  }

  /** A role that carries every field of a form loads back as exactly that form. */
  lemma LoadedFormRoundTrip(form: RoleForm, id: Option<string>, mongoId: Option<string>)
    ensures LoadedForm(Auth.Role(id, mongoId, Some(form.name), Some(form.key), Some(form.permissions))) == form
  {
  }

  /** A checkbox is ticked exactly when the stored role lists its permission. */
  lemma GrantedIsTicked(role: Auth.Role, name: string)
    ensures Includes(LoadedForm(role).permissions, name) <==> role.permissions.Some? && name in role.permissions.value
  {
  }

  /**
   * Opening the signed-in user's own role ticks exactly the permissions the
   * access guard grants that user.
   */
  lemma TickedIffGuardAllows(u: Auth.User, role: Auth.Role, perm: string)
    requires u.role == Some(role) && perm != ""
    ensures Includes(LoadedForm(role).permissions, perm) <==> Auth.HasPermission(Some(u), Some(perm))
  {
  }

  class RoleEditPage {
    var form: RoleForm
    var catalogue: seq<Permission>
    var loadingPerms: bool
    var loadingRole: bool
    var saving: bool
    var message: string
    var error: string

    /** The initial `useState` values. */
    constructor ()
      ensures form == EmptyForm && catalogue == []
      ensures !loadingPerms && !loadingRole && !saving && message == "" && error == ""
    {
      form, catalogue := EmptyForm, [];
      loadingPerms, loadingRole, saving := false, false, false;
      message, error := "", "";
    }

    /** `loadingPerms || loadingRole`: the form is replaced by "Loading..." while either request is out. */
    predicate IsLoading()
      reads this
    {
      loadingPerms || loadingRole
    }

    /** The mount effect (and a change of route id) starts both requests. */
    method Mount()
      modifies this
      ensures loadingPerms && loadingRole && IsLoading()
      ensures form == old(form) && catalogue == old(catalogue) && saving == old(saving)
      ensures message == old(message) && error == old(error)
    {
      loadingPerms := true;
      loadingRole := true;
    }

    /**
     * The catalogue request settles: a success replaces the catalogue, a
     * failure shows the server's message or the fallback; an earlier error is
     * not cleared. The screen stays loading while the role is still out.
     */
    method PermissionsSettled(reply: Response<seq<Permission>>)
      modifies this
      ensures !loadingPerms && IsLoading() == old(loadingRole)
      ensures reply.Ok? ==> catalogue == reply.data && error == old(error)
      ensures reply.Failed? ==> catalogue == old(catalogue) && error == ErrorText(reply.message, LoadPermissionsFallback)
      ensures form == old(form) && loadingRole == old(loadingRole) && saving == old(saving) && message == old(message)
    {
      match reply {
        case Ok(data) =>
          catalogue := data;
        case Failed(msg) =>
          error := ErrorText(msg, LoadPermissionsFallback);
      }
      loadingPerms := false;
    }

    /**
     * The role request settles: a success fills the form with defaults for
     * missing fields, a failure keeps the form and shows the server's message
     * or the fallback. The screen stays loading while the catalogue is still out.
     */
    method RoleSettled(reply: Response<Auth.Role>)
      modifies this
      ensures !loadingRole && IsLoading() == old(loadingPerms)
      ensures reply.Ok? ==> form == LoadedForm(reply.data) && error == old(error)
      ensures reply.Failed? ==> form == old(form) && error == ErrorText(reply.message, LoadRoleFallback)
      ensures catalogue == old(catalogue) && loadingPerms == old(loadingPerms) && saving == old(saving) && message == old(message)
    {
      match reply {
        case Ok(role) =>
          form := LoadedForm(role);
        case Failed(msg) =>
          error := ErrorText(msg, LoadRoleFallback);
      }
      loadingRole := false;
    }

    /** A checkbox click: the name leaves the form when it was ticked and joins it at the end otherwise. */
    method TogglePermission(name: string)
      modifies this
      ensures form.permissions == Toggled(old(form.permissions), name)
      ensures name in form.permissions <==> name !in old(form.permissions)
      ensures form.name == old(form.name) && form.key == old(form.key)
      ensures catalogue == old(catalogue) && loadingPerms == old(loadingPerms) && loadingRole == old(loadingRole)
      ensures saving == old(saving) && message == old(message) && error == old(error)
    {
      ToggleFlipsMembership(form.permissions, name);
      form := form.(permissions := Toggled(form.permissions, name));
    }

    /** Typing in the name or key input. */
    method HandleChange(field: RoleField, value: string)
      modifies this
      ensures form == WithField(old(form), field, value)
      ensures catalogue == old(catalogue) && loadingPerms == old(loadingPerms) && loadingRole == old(loadingRole)
      ensures saving == old(saving) && message == old(message) && error == old(error)
    {
      form := WithField(form, field, value);
    }

    /**
     * Saving the form, settled with `reply` to the update request: exactly one
     * banner shows afterwards; a success passes the returned role to the
     * session's `updateUserRole`, a failure leaves the session alone. The form
     * is kept either way.
     */
    method HandleSubmit(auth: Auth.AuthProvider, reply: Response<Auth.Role>)
      requires auth.Synced()
      modifies this, auth
      ensures auth.Synced()
      ensures !saving
      ensures (message != "") != (error != "")
      ensures reply.Ok? ==> message == UpdatedMessage && error == ""
      ensures reply.Ok? ==> auth.State() == Auth.WithRoleUpdate(old(auth.State()), reply.data)
      ensures reply.Failed? ==> message == "" && error == ErrorText(reply.message, UpdateFallback)
      ensures reply.Failed? ==> auth.State() == old(auth.State())
      ensures form == old(form) && catalogue == old(catalogue)
      ensures loadingPerms == old(loadingPerms) && loadingRole == old(loadingRole)
    {
      error := "";
      message := "";
      saving := true;
      match reply {
        case Ok(updatedRole) =>
          message := UpdatedMessage;
          auth.UpdateUserRole(updatedRole);
        case Failed(msg) =>
          error := ErrorText(msg, UpdateFallback);
      }
      saving := false;
    }

    /** The catalogue split by group, as the permissions grid shows it. */
    method GroupedPermissions() returns (order: seq<string>, buckets: map<string, seq<Permission>>)
      ensures Distinct(order) && (forall g :: g in order <==> g in buckets)
      ensures buckets.Keys == GroupsOf(catalogue)
      ensures forall g :: g in buckets ==> buckets[g] == Bucket(catalogue, g)
      ensures order == FirstSeen(catalogue)
    {
      order, buckets := GroupByGroup(catalogue);
    }
  }
}
