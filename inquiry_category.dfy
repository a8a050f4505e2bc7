/**
 * The inquiry-category settings page: a server-paged list of named categories with delete,
 * update (replace by id) and create (prepend), a one-field form, and a loading flag around
 * each fetch.
 */
module InquiryCategory {
  import opened Wrappers
  import opened CrudList

  /** An inquiry category as the server returns it. */
  datatype InquiryCategoryRow = InquiryCategoryRow(id: Option<string>, name: string, createdAt: Option<string>)

  function RowId(r: InquiryCategoryRow): Option<string> { r.id }

  /** The page's state. */
  class InquiryCategoryPage {
    var categories: seq<InquiryCategoryRow>
    var formName: string
    var editMode: EditMode
    var open: bool
    var confirmOpen: bool
    var deleteOpen: bool
    var deleteId: Option<string>
    var totalPages: int
    var totalRecords: int
    var loading: bool

    /** A fresh page shows its loading state until the first fetch ends. */
    constructor ()
      ensures categories == [] && formName == "" && editMode == NotEditing
      ensures !open && !confirmOpen && !deleteOpen && deleteId == None
      ensures totalPages == 1 && totalRecords == 0 && loading
    {
      categories := [];
      formName := "";
      editMode := NotEditing;
      open := false;
      confirmOpen := false;
      deleteOpen := false;
      deleteId := None;
      totalPages := 1;
      totalRecords := 0;
      loading := true;
    }

    /** `resetForm`: the name cleared and edit mode left. */
    method ResetForm()
      modifies this`formName, this`editMode
      ensures formName == "" && editMode == NotEditing
    {
      formName := "";
      editMode := NotEditing;
    }

    /** `handleEdit`: the form takes the row's name and the page edits the row's id. */
    method HandleEdit(row: InquiryCategoryRow)
      modifies this`formName, this`editMode, this`open
      ensures formName == row.name && editMode == EditMode(true, row.id) && open
    {
      formName := row.name;
      editMode := EditMode(true, row.id);
      open := true;
    }

    /** The delete button of a row: the confirmation opens for the row's id. */
    method AskDelete(row: InquiryCategoryRow)
      modifies this`deleteOpen, this`deleteId
      ensures deleteOpen && deleteId == row.id
    {
      deleteOpen := true;
      deleteId := row.id;
    }

    /**
     * `handleDelete`: nothing without an id; on success the categories with the id are gone. The
     * confirmation's state is left as it was.
     */
    method HandleDelete(reply: Ack) returns (sent: Option<string>)
      modifies this`categories
      ensures sent.Some? <==> Truthy(deleteId)
      ensures sent.Some? ==> sent == deleteId
      ensures sent.Some? && reply.Ok? ==> categories == RemoveById(old(categories), RowId, deleteId.value)
      ensures sent.None? || reply.Failed? ==> categories == old(categories)
    {
      if !Truthy(deleteId) {
        return None;
      }
      sent := deleteId;
      if reply.Ok? {
        categories := RemoveById(categories, RowId, deleteId.value);
      }
    }

    /** `handleUpdate`: nothing without an id; on success the row with the id becomes the server's copy. */
    method HandleUpdate(reply: Response<InquiryCategoryRow>) returns (request: Request<string>)
      modifies this`categories, this`formName, this`editMode, this`open
      ensures !Truthy(old(editMode.id)) ==>
        (request == NoRequest && categories == old(categories)
         && formName == old(formName) && editMode == old(editMode) && open == old(open))
      ensures Truthy(old(editMode.id)) ==> request == Put(old(editMode.id).value, old(formName))
      ensures Truthy(old(editMode.id)) && reply.Ok? ==>
        (categories == ReplaceById(old(categories), RowId, old(editMode.id).value, reply.body)
         && !open && formName == "" && editMode == NotEditing)
      ensures reply.Failed? ==>
        (categories == old(categories) && formName == old(formName) && editMode == old(editMode) && open == old(open))
    {
      if !Truthy(editMode.id) {
        return NoRequest;
      }
      request := Put(editMode.id.value, formName);
      if reply.Ok? {
        categories := ReplaceById(categories, RowId, editMode.id.value, reply.body);
        open := false;
        ResetForm();
      }
    }

    /**
     * The list effect: the reply's page of categories and its counts, with their fallbacks; the
     * loading flag is up while the request runs and down afterwards, on success and failure alike.
     */
    method FetchCategories(reply: Response<ListReply<InquiryCategoryRow>>) returns (loadingDuringRequest: bool)
      modifies this`categories, this`totalPages, this`totalRecords, this`loading
      ensures loadingDuringRequest && !loading
      ensures reply.Ok? ==>
        (categories == reply.body.data
         && totalPages == TotalPagesOr1(reply.body.pagination)
         && totalRecords == TotalRecordsOr0(reply.body.pagination))
      ensures reply.Failed? ==>
        categories == old(categories) && totalPages == old(totalPages) && totalRecords == old(totalRecords)
    {
      loading := true;
      loadingDuringRequest := loading;
      if reply.Ok? {
        categories := reply.body.data;
        totalPages := TotalPagesOr1(reply.body.pagination);
        totalRecords := TotalRecordsOr0(reply.body.pagination);
      }
      loading := false;
    }

    /** `handleSubmit`: submitting the form only opens the confirmation. */
    method HandleSubmit()
      modifies this`confirmOpen
      ensures confirmOpen
    {
      confirmOpen := true;
    }

    /** The confirmation's close button: it closes, and nothing is sent. */
    method CloseConfirm()
      modifies this`confirmOpen
      ensures !confirmOpen
    {
      confirmOpen := false;
    }

    /**
     * `confirmSubmit`: update in edit mode, otherwise post the name and prepend the server's
     * copy. It does not close the confirmation itself.
     */
    method ConfirmSubmit(reply: Response<InquiryCategoryRow>) returns (request: Request<string>)
      modifies this`categories, this`formName, this`editMode, this`open
      ensures old(editMode.isEdit) && Truthy(old(editMode.id)) ==> request == Put(old(editMode.id).value, old(formName))
      ensures old(editMode.isEdit) && Truthy(old(editMode.id)) && reply.Ok? ==>
        (categories == ReplaceById(old(categories), RowId, old(editMode.id).value, reply.body)
         && !open && formName == "" && editMode == NotEditing)
      ensures old(editMode.isEdit) && !Truthy(old(editMode.id)) ==>
        (request == NoRequest && categories == old(categories)
         && formName == old(formName) && editMode == old(editMode) && open == old(open))
      ensures !old(editMode.isEdit) ==> request == Post(old(formName))
      ensures !old(editMode.isEdit) && reply.Ok? ==>
        (categories == [reply.body] + old(categories) && !open && formName == "" && editMode == NotEditing)
      ensures reply.Failed? ==>
        (categories == old(categories) && formName == old(formName) && editMode == old(editMode) && open == old(open))
    {
      if editMode.isEdit {
        request := HandleUpdate(reply);
      } else {
        request := Post(formName);
        if reply.Ok? {
          categories := [reply.body] + categories;
          open := false;
          ResetForm();
        }
      }
    }
  }
}
