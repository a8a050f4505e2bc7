/**
 * The customization-type settings page: a server-paged list of named records with delete,
 * update (replace by id) and create (prepend), a one-field form, and the created-date column.
 */
module CustomizationType {
  import opened Wrappers
  import opened CrudList

  /** A customization type as the server returns it. */
  datatype CustomizationTypeRow = CustomizationTypeRow(id: Option<string>, name: string, createdAt: Option<string>)

  function RowId(r: CustomizationTypeRow): Option<string> { r.id }

  /** The page's state. */
  class CustomizationTypePage {
    var rows: seq<CustomizationTypeRow>
    var formName: string
    var editMode: EditMode
    var open: bool
    var confirmOpen: bool
    var deleteOpen: bool
    var deleteId: Option<string>
    var totalPages: int
    var totalRecords: int

    constructor ()
      ensures rows == [] && formName == "" && editMode == NotEditing
      ensures !open && !confirmOpen && !deleteOpen && deleteId == None
      ensures totalPages == 1 && totalRecords == 0
    {
      rows := [];
      formName := "";
      editMode := NotEditing;
      open := false;
      confirmOpen := false;
      deleteOpen := false;
      deleteId := None;
      totalPages := 1;
      totalRecords := 0;
    }

    /** `resetForm`: the name cleared and edit mode left. */
    method ResetForm()
      modifies this`formName, this`editMode
      ensures formName == "" && editMode == NotEditing
    {
      formName := "";
      editMode := NotEditing;
    }

    /** `handleEdit`: the form takes the row's name and the page edits the row's id. */
    method HandleEdit(row: CustomizationTypeRow)
      modifies this`formName, this`editMode, this`open
      ensures formName == row.name && editMode == EditMode(true, row.id) && open
    {
      formName := row.name;
      editMode := EditMode(true, row.id);
      open := true;
    }

    /** The delete button of a row: the confirmation opens for the row's id. */
    method AskDelete(row: CustomizationTypeRow)
      modifies this`deleteOpen, this`deleteId
      ensures deleteOpen && deleteId == row.id
    {
      deleteOpen := true;
      deleteId := row.id;
    }

    /**
     * `handleDelete`: nothing without an id; on success the rows with the id are gone. The
     * confirmation's state is left as it was.
     */
    method HandleDelete(reply: Ack) returns (sent: Option<string>)
      modifies this`rows
      ensures sent.Some? <==> Truthy(deleteId)
      ensures sent.Some? ==> sent == deleteId
      ensures sent.Some? && reply.Ok? ==> rows == RemoveById(old(rows), RowId, deleteId.value)
      ensures sent.None? || reply.Failed? ==> rows == old(rows)
    {
      if !Truthy(deleteId) {
        return None;
      }
      sent := deleteId;
      if reply.Ok? {
        rows := RemoveById(rows, RowId, deleteId.value);
      }
    }

    /** `handleUpdate`: nothing without an id; on success the row with the id becomes the server's copy. */
    method HandleUpdate(reply: Response<CustomizationTypeRow>) returns (request: Request<string>)
      modifies this`rows, this`formName, this`editMode, this`open
      ensures !Truthy(old(editMode.id)) ==>
        (request == NoRequest && rows == old(rows)
         && formName == old(formName) && editMode == old(editMode) && open == old(open))
      ensures Truthy(old(editMode.id)) ==> request == Put(old(editMode.id).value, old(formName))
      ensures Truthy(old(editMode.id)) && reply.Ok? ==>
        (rows == ReplaceById(old(rows), RowId, old(editMode.id).value, reply.body)
         && !open && formName == "" && editMode == NotEditing)
      ensures reply.Failed? ==>
        (rows == old(rows) && formName == old(formName) && editMode == old(editMode) && open == old(open))
    {
      if !Truthy(editMode.id) {
        return NoRequest;
      }
      request := Put(editMode.id.value, formName);
      if reply.Ok? {
        rows := ReplaceById(rows, RowId, editMode.id.value, reply.body);
        open := false;
        ResetForm();
      }
    }

    /** The list effect: the reply's page of rows and its counts, with their fallbacks. */
    method FetchRows(reply: Response<ListReply<CustomizationTypeRow>>)
      modifies this`rows, this`totalPages, this`totalRecords
      ensures reply.Ok? ==>
        (rows == reply.body.data
         && totalPages == TotalPagesOr1(reply.body.pagination)
         && totalRecords == TotalRecordsOr0(reply.body.pagination))
      ensures reply.Failed? ==>
        rows == old(rows) && totalPages == old(totalPages) && totalRecords == old(totalRecords)
    {
      if reply.Ok? {
        rows := reply.body.data;
        totalPages := TotalPagesOr1(reply.body.pagination);
        totalRecords := TotalRecordsOr0(reply.body.pagination);
      }
    }

    /** `handleSubmit`: submitting the form only opens the confirmation. */
    method HandleSubmit()
      modifies this`confirmOpen
      ensures confirmOpen
    {
      confirmOpen := true;
    }

    /** The confirmation's close button: it closes, and nothing is sent. */
    method CloseConfirm()
      modifies this`confirmOpen
      ensures !confirmOpen
    {
      confirmOpen := false;
    }

    /**
     * `confirmSubmit`: update in edit mode, otherwise post the name and prepend the server's
     * copy. It does not close the confirmation itself.
     */
    method ConfirmSubmit(reply: Response<CustomizationTypeRow>) returns (request: Request<string>)
      modifies this`rows, this`formName, this`editMode, this`open
      ensures old(editMode.isEdit) && Truthy(old(editMode.id)) ==> request == Put(old(editMode.id).value, old(formName))
      ensures old(editMode.isEdit) && Truthy(old(editMode.id)) && reply.Ok? ==>
        (rows == ReplaceById(old(rows), RowId, old(editMode.id).value, reply.body)
         && !open && formName == "" && editMode == NotEditing)
      ensures old(editMode.isEdit) && !Truthy(old(editMode.id)) ==>
        (request == NoRequest && rows == old(rows)
         && formName == old(formName) && editMode == old(editMode) && open == old(open))
      ensures !old(editMode.isEdit) ==> request == Post(old(formName))
      ensures !old(editMode.isEdit) && reply.Ok? ==>
        (rows == [reply.body] + old(rows) && !open && formName == "" && editMode == NotEditing)
      ensures reply.Failed? ==>
        (rows == old(rows) && formName == old(formName) && editMode == old(editMode) && open == old(open))
    {
      if editMode.isEdit {
        request := HandleUpdate(reply);
      } else {
        request := Post(formName);
        if reply.Ok? {
          rows := [reply.body] + rows;
          open := false;
          ResetForm();
        }
      }
    }
  }
}
