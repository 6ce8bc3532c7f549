/**
 * The role list screen: a server-paged table of roles with a search box.
 * Every handler requests the page it moves to at once, with the page size
 * and search text of the moment.
 */
module RoleList {
  import opened Js
  import opened Http
  import opened DataTable
  import Auth
  import RoleForms
  import RoleEdit

  /** The "Permissions count" column: `row.permissions?.length || 0`. */
  function PermissionCount(role: Auth.Role): nat {
    if role.permissions.Some? then |role.permissions.value| else 0
  }

  /** The count column agrees with the number of boxes the edit screen ticks for the same role. */
  lemma CountMatchesEditForm(role: Auth.Role)
    ensures PermissionCount(role) == |RoleEdit.LoadedForm(role).permissions|
  {
  }

  /**
   * Saving the edit form after one checkbox click moves the count by one,
   * when the stored list had no duplicates.
   */
  lemma {:induction false} CountAfterOneToggle(role: Auth.Role, name: string)
    requires role.permissions.Some? && Distinct(role.permissions.value)
    ensures var toggled := RoleForms.Toggled(RoleEdit.LoadedForm(role).permissions, name);
      PermissionCount(role.(permissions := Some(toggled)))
        == if name in role.permissions.value then PermissionCount(role) - 1 else PermissionCount(role) + 1
  {
    RoleForms.ToggleChangesCountByOne(role.permissions.value, name);
  }

  class RoleListPage {
    var roles: seq<Auth.Role>
    var totalRows: int
    var loading: bool
    var page: int
    var perPage: int
    var search: string

    /** The initial `useState` values: page 1 of 10 rows, no search. */
    constructor ()
      ensures roles == [] && totalRows == 0 && !loading
      ensures page == 1 && perPage == 10 && search == ""
    {
      roles, totalRows, loading := [], 0, false;
      page, perPage, search := 1, 10, "";
    }

    /** The request that matches what the table shows: current page, page size and search. */
    function CurrentRequest(): Request
      reads this
    {
      PageRequest(page, perPage, search)
    }

    /**
     * `fetchRoles(pageNumber = page, pageSize = perPage, searchValue = search)`
     * up to the request: the spinner starts and the request goes out; a
     * missing argument takes the current state.
     */
    method FetchRoles(pageNumber: Option<int>, pageSize: Option<int>, searchValue: Option<string>) returns (req: Request)
      modifies this
      ensures loading
      ensures req == PageRequest(pageNumber.GetOr(old(page)), pageSize.GetOr(old(perPage)), searchValue.GetOr(old(search)))
      ensures roles == old(roles) && totalRows == old(totalRows)
      ensures page == old(page) && perPage == old(perPage) && search == old(search)
    {
      loading := true;
      req := PageRequest(pageNumber.GetOr(page), pageSize.GetOr(perPage), searchValue.GetOr(search));
    }

    /**
     * A `fetchRoles` request settles with `reply`, whichever request it was:
     * a success replaces the rows and the row count, a failure keeps both,
     * and the spinner stops either way.
     */
    method FetchSettled(reply: Response<Reply<Auth.Role>>)
      modifies this
      ensures !loading
      ensures reply.Ok? ==> roles == RowsOf(reply.data) && totalRows == TotalRows(reply.data)
      ensures reply.Failed? ==> roles == old(roles) && totalRows == old(totalRows)
      ensures page == old(page) && perPage == old(perPage) && search == old(search)
    {
      match reply {
        case Ok(body) =>
          roles := RowsOf(body);
          totalRows := TotalRows(body);
        case Failed(_) =>
      }
      loading := false;
    }

    /** The mount effect: page 1 with the current page size and no search. */
    method Mount() returns (req: Request)
      modifies this
      ensures loading
      ensures req == PageRequest(1, perPage, "")
      ensures old(page) == 1 && old(search) == "" ==> req == CurrentRequest()
      ensures roles == old(roles) && totalRows == old(totalRows)
      ensures page == old(page) && perPage == old(perPage) && search == old(search)
    {
      req := FetchRoles(Some(1), Some(perPage), Some(""));
    }

    /** The pager moves to `newPage`, which is requested at once. */
    method HandlePageChange(newPage: int) returns (req: Request)
      modifies this
      ensures loading && page == newPage
      ensures req == CurrentRequest()
      ensures roles == old(roles) && totalRows == old(totalRows)
      ensures perPage == old(perPage) && search == old(search)
    {
      page := newPage;
      req := FetchRoles(Some(newPage), Some(perPage), Some(search));
    }

    /** The page size changes; the table reports the page to show with it. */
    method HandlePerRowsChange(newPerPage: int, newPage: int) returns (req: Request)
      modifies this
      ensures loading && perPage == newPerPage && page == newPage
      ensures req == CurrentRequest()
      ensures roles == old(roles) && totalRows == old(totalRows) && search == old(search)
    {
      perPage := newPerPage;
      page := newPage;
      req := FetchRoles(Some(newPage), Some(newPerPage), Some(search));
    }

    /** Typing in the search box: the search restarts from page 1. */
    method HandleSearchChange(value: string) returns (req: Request)
      modifies this
      ensures loading && search == value && page == 1
      ensures req == CurrentRequest() && req.start == 0
      ensures roles == old(roles) && totalRows == old(totalRows) && perPage == old(perPage)
    {
      search := value;
      req := FetchRoles(Some(1), Some(perPage), Some(value));
      page := 1;
    }
  }
}
