/**
 * The staff settings page: the staff list with delete and create (prepend), the four-field
 * form, and a loading flag around the fetch of all staff.
 */
module Staff {
  import opened Wrappers
  import opened CrudList

  /** A staff member as the server returns it. */
  datatype StaffRow = StaffRow(id: Option<string>, fullName: string, email: string, phone: string, password: Option<string>)

  /** The form, posted as it is. */
  datatype StaffForm = StaffForm(fullName: string, email: string, phone: string, password: string)

  const EmptyForm := StaffForm("", "", "", "")

  function StaffId(s: StaffRow): Option<string> { s.id }

  /** The page's state. */
  class StaffPage {
    var staff: seq<StaffRow>
    var form: StaffForm
    var open: bool
    var loading: bool
    var deleteOpen: bool
    var deleteId: Option<string>

    constructor ()
      ensures staff == [] && form == EmptyForm && !open && !loading && !deleteOpen && deleteId == None
    {
      staff := [];
      form := EmptyForm;
      open := false;
      loading := false;
      deleteOpen := false;
      deleteId := None;
    }

    /** `resetForm`: all four fields cleared. */
    method ResetForm()
      modifies this`form
      ensures form == EmptyForm
    {
      form := EmptyForm;
    }

    /** The delete button of a row: the confirmation opens for the row's id. */
    method AskDelete(row: StaffRow)
      modifies this`deleteOpen, this`deleteId
      ensures deleteOpen && deleteId == row.id
    {
      deleteOpen := true;
      deleteId := row.id;
    }

    /** `handleDelete`: nothing without an id; on success that member is gone, on failure nothing changes. */
    method HandleDelete(reply: Ack) returns (sent: Option<string>)
      modifies this`staff
      ensures sent.Some? <==> Truthy(deleteId)
      ensures sent.Some? ==> sent == deleteId
      ensures sent.Some? && reply.Ok? ==> staff == RemoveById(old(staff), StaffId, deleteId.value)
      ensures sent.None? || reply.Failed? ==> staff == old(staff)
    {
      if !Truthy(deleteId) {
        return None;
      }
      sent := deleteId;
      if reply.Ok? {
        staff := RemoveById(staff, StaffId, deleteId.value);
      }
    }

    /** `fetchAllStaff`: the reply's list; the loading flag is up during the request and down after it. */
    method FetchAllStaff(reply: Response<seq<StaffRow>>) returns (loadingDuringRequest: bool)
      modifies this`staff, this`loading
      ensures loadingDuringRequest && !loading
      ensures staff == if reply.Ok? then reply.body else old(staff)
    {
      loading := true;
      loadingDuringRequest := loading;
      if reply.Ok? {
        staff := reply.body;
      }
      loading := false;
    }

    /**
     * `handleSubmit`: the form is posted as it is; on success the server's copy is prepended, the
     * dialog closes and the form is cleared; on failure the list and the form stay as they were.
     */
    method HandleSubmit(reply: Response<StaffRow>) returns (payload: StaffForm)
      modifies this`staff, this`form, this`open
      ensures payload == old(form)
      ensures reply.Ok? ==> staff == [reply.body] + old(staff) && !open && form == EmptyForm
      ensures reply.Failed? ==> staff == old(staff) && form == old(form) && open == old(open)
    {
      payload := form;
      if reply.Ok? {
        staff := [reply.body] + staff;
        open := false;
        ResetForm();
      }
    }
  }
}
