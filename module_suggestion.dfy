/**
 * The model-suggestion settings page: a server-paged list of models, each in an inquiry
 * category, with delete, update (replace by id) and create (prepend). A saved model's category
 * is taken from the page's own category list when it has the chosen id, and GST defaults to 18.
 */
module ModuleSuggestion {
  import opened Wrappers
  import opened Text
  import opened CrudList

  /** An inquiry category as the category list returns it. */
  datatype Category = Category(id: string, name: string)

  /** A model as the page lists it. */
  datatype ModelRow = ModelRow(id: Option<string>, name: string, modelNo: string, rate: string, gst: int, category: Category)

  /** The form: every field as text, the category by id. */
  datatype ModelForm = ModelForm(name: string, modelNo: string, rate: string, gst: string, categoryId: string)

  /** `Number(text)`: the number the text converts to, kept symbolic. */
  datatype NumberValue = NumberOf(text: string)

  /** The body of a save: the form's fields, GST converted to a number and the category id. */
  datatype ModelPayload = ModelPayload(name: string, modelNo: string, rate: string, gst: NumberValue, category: string)

  /** The form of `resetForm` and of a fresh page: empty fields and a GST of "18". */
  const DefaultForm := ModelForm("", "", "", "18", "")

  function ModelId(m: ModelRow): Option<string> { m.id }

  /** The body both the update and the create send. */
  function Payload(f: ModelForm): (p: ModelPayload)
    ensures p.name == f.name && p.modelNo == f.modelNo && p.rate == f.rate
    ensures p.gst == NumberOf(f.gst) && p.category == f.categoryId
  {
    ModelPayload(f.name, f.modelNo, f.rate, NumberOf(f.gst), f.categoryId)
  }

  /** `String(gst || 18)`: the GST shown in the edit form; 0 reads as missing. */
  function GstText(gst: int): (r: string)
    ensures gst == 0 ==> r == "18"
    ensures gst > 0 ==> r == NatToDecimal(gst)
  {
    assert NatToDecimal(18) == "18" by {
      assert NatToDecimal(18) == [DigitChar(1)] + [DigitChar(8)];
    }
    IntToDecimal(if gst == 0 then 18 else gst)
  }

  /** A positive GST shown in the form reads back as itself; a GST of 0 reads back as 18. */
  lemma GstTextReadsBack(gst: int)
    requires gst >= 0
    ensures forall i :: 0 <= i < |GstText(gst)| ==> IsDigit(GstText(gst)[i])
    ensures DecimalValue(GstText(gst)) == if gst == 0 then 18 else gst
  {
    DecimalRoundTrip(if gst == 0 then 18 else gst);
  }

  /** The form `handleEdit` fills from a row. */
  function EditForm(row: ModelRow): (f: ModelForm)
    ensures f.name == row.name && f.modelNo == row.modelNo && f.rate == row.rate
    ensures f.gst == GstText(row.gst) && f.categoryId == row.category.id
  {
    ModelForm(row.name, row.modelNo, row.rate, GstText(row.gst), row.category.id)
  }

  /** `categories.find(c => c._id === id)`: the first category with the id. */
  function FindCategory(categories: seq<Category>, id: string): (r: Option<Category>)
    ensures r.None? <==> forall i :: 0 <= i < |categories| ==> categories[i].id != id
    ensures r.Some? ==>
      exists k :: (0 <= k < |categories| && categories[k] == r.value
                   && (forall i :: 0 <= i < k ==> categories[i].id != id))
    ensures r.Some? ==> r.value.id == id
  {
    if categories == [] then None
    else if categories[0].id == id then Some(categories[0])
    else FindCategory(categories[1..], id)
  }

  /** The saved model as the page stores it: the server's copy with the category from the local list if it is there. */
  function Populated(saved: ModelRow, categories: seq<Category>, categoryId: string): (m: ModelRow)
    ensures m == saved.(category := m.category)
  {
    saved.(category := FindCategory(categories, categoryId).GetOr(saved.category))
  }

  /**
   * The stored category is the local one with the chosen id when the list has it, and the
   * server's otherwise.
   */
  lemma PopulatedCategory(saved: ModelRow, categories: seq<Category>, categoryId: string)
    ensures (exists i :: 0 <= i < |categories| && categories[i].id == categoryId) ==>
      (Populated(saved, categories, categoryId).category.id == categoryId
       && Populated(saved, categories, categoryId).category in categories)
    ensures (forall i :: 0 <= i < |categories| ==> categories[i].id != categoryId) ==>
      Populated(saved, categories, categoryId) == saved
  {
  }

  /** The page's state. */
  class ModelSuggestionPage {
    var models: seq<ModelRow>
    var categories: seq<Category>
    var form: ModelForm
    var editMode: EditMode
    var open: bool
    var confirmOpen: bool
    var loading: bool
    var deleteOpen: bool
    var deleteId: Option<string>
    var totalPages: int
    var totalRecords: int

    constructor ()
      ensures models == [] && categories == [] && form == DefaultForm && editMode == NotEditing
      ensures !open && !confirmOpen && !loading && !deleteOpen && deleteId == None
      ensures totalPages == 1 && totalRecords == 0
    {
      models := [];
      categories := [];
      form := DefaultForm;
      editMode := NotEditing;
      open := false;
      confirmOpen := false;
      loading := false;
      deleteOpen := false;
      deleteId := None;
      totalPages := 1;
      totalRecords := 0;
    }

    /** `resetForm`: the default form, GST "18", out of edit mode. */
    method ResetForm()
      modifies this`form, this`editMode
      ensures form == DefaultForm && editMode == NotEditing
    {
      form := DefaultForm;
      editMode := NotEditing;
    }

    /** `handleEdit`: the form takes the row's fields, its GST shown with the 18 fallback. */
    method HandleEdit(row: ModelRow)
      modifies this`form, this`editMode, this`open
      ensures form == EditForm(row) && editMode == EditMode(true, row.id) && open
    {
      form := EditForm(row);
      editMode := EditMode(true, row.id);
      open := true;
    }

    /** The delete button of a row: the confirmation opens for the row's id. */
    method AskDelete(row: ModelRow)
      modifies this`deleteOpen, this`deleteId
      ensures deleteOpen && deleteId == row.id
    {
      deleteOpen := true;
      deleteId := row.id;
    }

    /** `handleDelete`: nothing without an id; on success the models with the id are gone. */
    method HandleDelete(reply: Ack) returns (sent: Option<string>)
      modifies this`models
      ensures sent.Some? <==> Truthy(deleteId)
      ensures sent.Some? ==> sent == deleteId
      ensures sent.Some? && reply.Ok? ==> models == RemoveById(old(models), ModelId, deleteId.value)
      ensures sent.None? || reply.Failed? ==> models == old(models)
    {
      if !Truthy(deleteId) {
        return None;
      }
      sent := deleteId;
      if reply.Ok? {
        models := RemoveById(models, ModelId, deleteId.value);
      }
    }

    /** `fetchCategories`: the category list the form offers and saves are populated from. */
    method FetchCategories(reply: Response<seq<Category>>)
      modifies this`categories
      ensures categories == if reply.Ok? then reply.body else old(categories)
    {
      if reply.Ok? {
        categories := reply.body;
      }
    }

    /** `fetchModels`: the reply's page of models and counts; loading is up during the request only. */
    method FetchModels(reply: Response<ListReply<ModelRow>>) returns (loadingDuringRequest: bool)
      modifies this`models, this`totalPages, this`totalRecords, this`loading
      ensures loadingDuringRequest && !loading
      ensures reply.Ok? ==>
        (models == reply.body.data
         && totalPages == TotalPagesOr1(reply.body.pagination)
         && totalRecords == TotalRecordsOr0(reply.body.pagination))
      ensures reply.Failed? ==>
        models == old(models) && totalPages == old(totalPages) && totalRecords == old(totalRecords)
    {
      loading := true;
      loadingDuringRequest := loading;
      if reply.Ok? {
        models := reply.body.data;
        totalPages := TotalPagesOr1(reply.body.pagination);
        totalRecords := TotalRecordsOr0(reply.body.pagination);
      }
      loading := false;
    }

    /**
     * `handleUpdate`: nothing without an id; otherwise the payload is put, and on success the
     * model with the id becomes the server's copy with its category populated.
     */
    method HandleUpdate(reply: Response<ModelRow>) returns (request: Request<ModelPayload>)
      modifies this`models, this`form, this`editMode, this`open
      ensures !Truthy(old(editMode.id)) ==>
        (request == NoRequest && models == old(models)
         && form == old(form) && editMode == old(editMode) && open == old(open))
      ensures Truthy(old(editMode.id)) ==> request == Put(old(editMode.id).value, Payload(old(form)))
      ensures Truthy(old(editMode.id)) && reply.Ok? ==>
        (models == ReplaceById(old(models), ModelId, old(editMode.id).value,
                               Populated(reply.body, categories, old(form).categoryId))
         && !open && form == DefaultForm && editMode == NotEditing)
      ensures reply.Failed? ==>
        (models == old(models) && form == old(form) && editMode == old(editMode) && open == old(open))
    {
      if !Truthy(editMode.id) {
        return NoRequest;
      }
      request := Put(editMode.id.value, Payload(form));
      if reply.Ok? {
        var updated := Populated(reply.body, categories, form.categoryId);
        models := ReplaceById(models, ModelId, editMode.id.value, updated);
        open := false;
        ResetForm();
      }
    }

    /** `handleSubmit`: submitting the form only opens the confirmation. */
    method HandleSubmit()
      modifies this`confirmOpen
      ensures confirmOpen
    {
      confirmOpen := true;
    }

    /** The confirmation's close button: it closes, and nothing is sent. */
    method CloseConfirm()
      modifies this`confirmOpen
      ensures !confirmOpen
    {
      confirmOpen := false;
    }

    /** `confirmSubmit`: update in edit mode, otherwise post the payload and prepend the populated copy. */
    method ConfirmSubmit(reply: Response<ModelRow>) returns (request: Request<ModelPayload>)
      modifies this`models, this`form, this`editMode, this`open
      ensures old(editMode.isEdit) && Truthy(old(editMode.id)) ==>
        request == Put(old(editMode.id).value, Payload(old(form)))
      ensures old(editMode.isEdit) && Truthy(old(editMode.id)) && reply.Ok? ==>
        (models == ReplaceById(old(models), ModelId, old(editMode.id).value,
                               Populated(reply.body, categories, old(form).categoryId))
         && !open && form == DefaultForm && editMode == NotEditing)
      ensures old(editMode.isEdit) && !Truthy(old(editMode.id)) ==>
        (request == NoRequest && models == old(models)
         && form == old(form) && editMode == old(editMode) && open == old(open))
      ensures !old(editMode.isEdit) ==> request == Post(Payload(old(form)))
      ensures !old(editMode.isEdit) && reply.Ok? ==>
        (models == [Populated(reply.body, categories, old(form).categoryId)] + old(models)
         && !open && form == DefaultForm && editMode == NotEditing)
      ensures reply.Failed? ==>
        (models == old(models) && form == old(form) && editMode == old(editMode) && open == old(open))
    {
      if editMode.isEdit {
        request := HandleUpdate(reply);
      } else {
        request := Post(Payload(form));
        if reply.Ok? {
          models := [Populated(reply.body, categories, form.categoryId)] + models;
          open := false;
          ResetForm();
        }
      }
    }
  }
}
