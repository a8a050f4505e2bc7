/**
 * The role settings page: the role list with delete, update and create, the role form with
 * its allowed-status checklist (toggle one, select all, clear all), and the form defaults.
 */
module RoleSettings {
  import opened Wrappers
  import opened Lists
  import opened CrudList

  datatype ViewType = ViewAll | ViewOwn

  /** A role as the server returns it; `accountMasterViewType` may be missing. */
  datatype Role = Role(
    id: Option<string>, roleName: string, allowedStatuses: seq<string>,
    canAccessSettings: bool, canAccessAccountMaster: bool, viewType: Option<ViewType>)

  /** The role form. */
  datatype RoleForm = RoleForm(
    roleName: string, allowedStatuses: seq<string>,
    canAccessSettings: bool, canAccessAccountMaster: bool, viewType: ViewType)

  /** The form of `resetForm` and of a fresh page. */
  const EmptyForm := RoleForm("", [], false, false, ViewOwn)

  function RoleId(r: Role): Option<string> { r.id }

  function IsNot(s: string): string -> bool {
    (t: string) => t != s
  }

  /** `toggleStatus`: drop every copy of a present status, or append an absent one at the end. */
  function ToggleStatus(statuses: seq<string>, s: string): (r: seq<string>)
    ensures s in r <==> s !in statuses
    ensures forall t :: t != s ==> (t in r <==> t in statuses)
    ensures s in statuses ==> IsSubseq(r, statuses)
    ensures s !in statuses ==> |r| == |statuses| + 1 && r[..|statuses|] == statuses && r[|statuses|] == s
  {
    if s in statuses then Filter(statuses, IsNot(s)) else statuses + [s]
  }

  /** Toggling an absent status twice gives back the original list. */
  lemma ToggleAbsentTwice(statuses: seq<string>, s: string)
    requires s !in statuses
    ensures ToggleStatus(ToggleStatus(statuses, s), s) == statuses
  {
    FilterAppend(statuses, [s], IsNot(s));
    FilterKeepsAll(statuses, IsNot(s));
  }

  /** Toggling a present status twice collapses its copies into one, moved to the end. */
  lemma TogglePresentTwice(statuses: seq<string>, s: string)
    requires s in statuses
    ensures ToggleStatus(ToggleStatus(statuses, s), s) == Filter(statuses, IsNot(s)) + [s]
  {
  }

  /** The role settings page's state. */
  class RolePage {
    var roles: seq<Role>
    var allStatuses: seq<string>
    var form: RoleForm
    var editMode: EditMode
    var open: bool
    var confirmOpen: bool
    var deleteOpen: bool
    var deleteId: Option<string>
    var loading: bool
    var totalPages: int
    var totalRecords: int

    constructor ()
      ensures roles == [] && allStatuses == [] && form == EmptyForm && editMode == NotEditing
      ensures !open && !confirmOpen && !deleteOpen && deleteId == None
      ensures !loading && totalPages == 1 && totalRecords == 0
    {
      roles := [];
      allStatuses := [];
      form := EmptyForm;
      editMode := NotEditing;
      open := false;
      confirmOpen := false;
      deleteOpen := false;
      deleteId := None;
      loading := false;
      totalPages := 1;
      totalRecords := 0;
    }

    /**
     * `fetchAllRoles`: the reply's page of roles and its counts, with their fallbacks; the
     * loading flag is up while the request runs and down afterwards, on success and failure alike.
     */
    method FetchAllRoles(reply: Response<ListReply<Role>>) returns (loadingDuringRequest: bool)
      modifies this`roles, this`totalPages, this`totalRecords, this`loading
      ensures loadingDuringRequest && !loading
      ensures reply.Ok? ==>
        (roles == reply.body.data
         && totalPages == TotalPagesOr1(reply.body.pagination)
         && totalRecords == TotalRecordsOr0(reply.body.pagination))
      ensures reply.Failed? ==>
        roles == old(roles) && totalPages == old(totalPages) && totalRecords == old(totalRecords)
    {
      loading := true;
      loadingDuringRequest := loading;
      if reply.Ok? {
        roles := reply.body.data;
        totalPages := TotalPagesOr1(reply.body.pagination);
        totalRecords := TotalRecordsOr0(reply.body.pagination);
      }
      loading := false;
    }

    /** `fetchStatuses`: the full status list offered by the checklist. */
    method FetchStatuses(reply: Response<seq<string>>)
      modifies this`allStatuses
      ensures allStatuses == if reply.Ok? then reply.body else old(allStatuses)
    {
      if reply.Ok? {
        allStatuses := reply.body;
      }
    }

    /** The delete button of a row: the confirmation opens for the row's id. */
    method AskDelete(row: Role)
      modifies this`deleteOpen, this`deleteId
      ensures deleteOpen && deleteId == row.id
    {
      deleteOpen := true;
      deleteId := row.id;
    }

    /** `handleDelete`: nothing without an id; on success the role is gone and the dialog closed. */
    method HandleDelete(reply: Ack) returns (sent: Option<string>)
      modifies this`roles, this`deleteOpen, this`deleteId
      ensures !Truthy(old(deleteId)) ==>
        (sent == None && roles == old(roles)
         && deleteOpen == old(deleteOpen) && deleteId == old(deleteId))
      ensures Truthy(old(deleteId)) && reply.Ok? ==>
        (sent == old(deleteId)
         && roles == RemoveById(old(roles), RoleId, old(deleteId).value) && !deleteOpen && deleteId == None)
      ensures Truthy(old(deleteId)) && reply.Failed? ==>
        (sent == old(deleteId)
         && roles == old(roles) && deleteOpen == old(deleteOpen) && deleteId == old(deleteId))
    {
      if !Truthy(deleteId) {
        return None;
      }
      sent := deleteId;
      if reply.Ok? {
        roles := RemoveById(roles, RoleId, deleteId.value);
        deleteOpen := false;
        deleteId := None;
      }
    }

    /** `handleEdit`: the form takes the row's values, a missing view type reads as "view_own". */
    method HandleEdit(row: Role)
      modifies this`form, this`editMode, this`open
      ensures form == RoleForm(row.roleName, row.allowedStatuses, row.canAccessSettings,
        row.canAccessAccountMaster, row.viewType.GetOr(ViewOwn))
      ensures row.viewType.None? ==> form.viewType == ViewOwn
      ensures editMode == EditMode(true, row.id) && open
    {
      form := RoleForm(row.roleName, row.allowedStatuses, row.canAccessSettings,
        row.canAccessAccountMaster, row.viewType.GetOr(ViewOwn));
      editMode := EditMode(true, row.id);
      open := true;
    }

    /** `resetForm`: the empty form, out of edit mode. */
    method ResetForm()
      modifies this`form, this`editMode
      ensures form == EmptyForm && editMode == NotEditing
    {
      form := EmptyForm;
      editMode := NotEditing;
    }

    /** `handleUpdate`: nothing without an id; on success the role with the id becomes the server's copy. */
    method HandleUpdate(reply: Response<Role>) returns (request: Request<RoleForm>)
      modifies this`roles, this`form, this`editMode, this`open
      ensures !Truthy(old(editMode.id)) ==>
        (request == NoRequest && roles == old(roles)
         && form == old(form) && editMode == old(editMode) && open == old(open))
      ensures Truthy(old(editMode.id)) ==> request == Put(old(editMode.id).value, old(form))
      ensures Truthy(old(editMode.id)) && reply.Ok? ==>
        roles == ReplaceById(old(roles), RoleId, old(editMode.id).value, reply.body)
        && !open && form == EmptyForm && editMode == NotEditing
      ensures Truthy(old(editMode.id)) && reply.Failed? ==>
        (roles == old(roles)
         && form == old(form) && editMode == old(editMode) && open == old(open))
    {
      if !Truthy(editMode.id) {
        return NoRequest;
      }
      request := Put(editMode.id.value, form);
      if reply.Ok? {
        roles := ReplaceById(roles, RoleId, editMode.id.value, reply.body);
        open := false;
        ResetForm();
        editMode := NotEditing;
      }
    }

    /** `handleSubmit`: submitting the form only opens the confirmation. */
    method HandleSubmit()
      modifies this`confirmOpen
      ensures confirmOpen
    {
      confirmOpen := true;
    }

    /** The confirmation's close button: it closes, and nothing is sent. */
    method CloseConfirm()
      modifies this`confirmOpen
      ensures !confirmOpen
    {
      confirmOpen := false;
    }

    /** `confirmSubmit`: update in edit mode, otherwise create (prepending the server's copy); the confirmation closes. */
    method ConfirmSubmit(reply: Response<Role>) returns (request: Request<RoleForm>)
      modifies this`roles, this`form, this`editMode, this`open, this`confirmOpen
      ensures !confirmOpen
      ensures old(editMode.isEdit) && Truthy(old(editMode.id)) ==> request == Put(old(editMode.id).value, old(form))
      ensures old(editMode.isEdit) && Truthy(old(editMode.id)) && reply.Ok? ==>
        (roles == ReplaceById(old(roles), RoleId, old(editMode.id).value, reply.body)
         && !open && form == EmptyForm && editMode == NotEditing)
      ensures old(editMode.isEdit) && !Truthy(old(editMode.id)) ==>
        (request == NoRequest && roles == old(roles)
         && form == old(form) && editMode == old(editMode) && open == old(open))
      ensures !old(editMode.isEdit) ==> request == Post(old(form))
      ensures !old(editMode.isEdit) && reply.Ok? ==>
        roles == [reply.body] + old(roles) && !open && form == EmptyForm && editMode == NotEditing
      ensures reply.Failed? ==> roles == old(roles) && form == old(form) && editMode == old(editMode) && open == old(open)
    {
      if editMode.isEdit {
        request := HandleUpdate(reply);
      } else {
        request := Post(form);
        if reply.Ok? {
          roles := [reply.body] + roles;
          open := false;
          ResetForm();
        }
      }
      confirmOpen := false;
    }

    /** A checkbox of the checklist: `toggleStatus` on the form. */
    method ToggleFormStatus(s: string)
      modifies this`form
      ensures form == old(form).(allowedStatuses := ToggleStatus(old(form).allowedStatuses, s))
    {
      form := form.(allowedStatuses := ToggleStatus(form.allowedStatuses, s));
    }

    /** "Select All": every fetched status. */
    method SelectAll()
      modifies this`form
      ensures form == old(form).(allowedStatuses := allStatuses)
    {
      form := form.(allowedStatuses := allStatuses);
    }

    /** "Clear All": no status. */
    method ClearAll()
      modifies this`form
      ensures form == old(form).(allowedStatuses := [])
    {
      form := form.(allowedStatuses := []);
    }
  }
}
