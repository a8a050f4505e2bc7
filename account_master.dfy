/**
 * The account master page: the server-paged account list, narrowed to the signed-in staff
 * member's own accounts in "view own" mode; the staff dropdown of members allowed the account
 * master; the fourteen-field form with its edit defaults; and delete, update and create, where
 * an empty assignee is sent as null.
 */
module AccountMaster {
  import opened Wrappers
  import opened Lists
  import opened CrudList

  /** A staff member as an account's `assignBy` holds it. */
  datatype StaffRef = StaffRef(id: string, fullName: string)

  /** An account's address; every part may be missing. */
  datatype Address = Address(
    line1: Option<string>, line2: Option<string>, cityName: Option<string>,
    stateName: Option<string>, countryName: Option<string>)

  /** An account as the server returns it. */
  datatype AccountRow = AccountRow(
    id: Option<string>, companyName: string, clientName: string, mobile: string, email: string,
    website: string, sourcebyTypeOfClient: string, sourceFrom: Option<string>,
    assignBy: Option<StaffRef>, remark: Option<string>, address: Option<Address>)

  /** The form: fourteen text fields, the assignee by id. */
  datatype AccountForm = AccountForm(
    companyName: string, clientName: string, line1: string, line2: string, cityName: string,
    stateName: string, countryName: string, mobile: string, email: string, website: string,
    sourcebyTypeOfClient: string, sourceFrom: string, assignById: string, remark: string)

  /** The address part of a save. */
  datatype PayloadAddress = PayloadAddress(line1: string, line2: string, cityName: string, stateName: string, countryName: string)

  /** The body of a save; `assignBy` is `None` for JSON null. */
  datatype AccountPayload = AccountPayload(
    companyName: string, clientName: string, address: PayloadAddress, mobile: string,
    email: string, website: string, sourcebyTypeOfClient: string, sourceFrom: string,
    assignBy: Option<string>, remark: string)

  /** The role of a dropdown entry, as far as the filter reads it. */
  datatype RoleAccess = RoleAccess(canAccessAccountMaster: Option<bool>)

  /** An entry of the staff dropdown reply. */
  datatype DropdownStaff = DropdownStaff(id: string, fullName: string, role: Option<RoleAccess>)

  /** The account list reply; `data` may be missing. */
  datatype AccountsReply = AccountsReply(data: Option<seq<AccountRow>>, pagination: Option<Pagination>)

  const EmptyForm := AccountForm("", "", "", "", "", "", "", "", "", "", "", "", "", "")

  /** The stored view type that narrows the list. */
  const VIEW_OWN := "view_own"

  function AccountId(a: AccountRow): Option<string> { a.id }

  /** `account.assignBy?._id === staffId`. */
  function AssignedTo(staffId: string): AccountRow -> bool {
    (a: AccountRow) => a.assignBy.Some? && a.assignBy.value.id == staffId
  }

  /** The list mode reads "view own" with a truthy staff id. */
  predicate ViewOwn(viewType: Option<string>, staffId: Option<string>) {
    viewType == Some(VIEW_OWN) && Truthy(staffId)
  }

  /**
   * The accounts `fetchAccounts` shows: the reply's list or `[]`, narrowed in "view own" mode
   * to the accounts assigned to the staff id, in order; otherwise all of them.
   */
  function VisibleAccounts(data: Option<seq<AccountRow>>, viewType: Option<string>, staffId: Option<string>): (r: seq<AccountRow>)
    ensures ViewOwn(viewType, staffId) ==>
      (IsSubseq(r, data.GetOr([]))
       && forall a :: a in r <==> a in data.GetOr([]) && AssignedTo(staffId.value)(a))
    ensures !ViewOwn(viewType, staffId) ==> r == data.GetOr([])
  {
    var all := data.GetOr([]);
    if ViewOwn(viewType, staffId) then Filter(all, AssignedTo(staffId.value)) else all
  }

  /** Narrowing a list that is already narrowed changes nothing. */
  lemma VisibleAccountsIdempotent(data: Option<seq<AccountRow>>, viewType: Option<string>, staffId: Option<string>)
    ensures var r := VisibleAccounts(data, viewType, staffId);
      VisibleAccounts(Some(r), viewType, staffId) == r
  {
    var r := VisibleAccounts(data, viewType, staffId);
    if ViewOwn(viewType, staffId) {
      FilterKeepsAll(r, AssignedTo(staffId.value));
    }
  }

  /** In "view own" mode, when no account is assigned to the staff member, nothing is shown. */
  lemma ViewOwnNoneAssigned(data: Option<seq<AccountRow>>, viewType: Option<string>, staffId: Option<string>)
    requires ViewOwn(viewType, staffId)
    requires forall a :: a in data.GetOr([]) ==> !AssignedTo(staffId.value)(a)
    ensures VisibleAccounts(data, viewType, staffId) == []
  {
    FilterKeepsNone(data.GetOr([]), AssignedTo(staffId.value));
  }

  /** `staff.role?.canAccessAccountMaster === true`. */
  function HasAccountMasterAccess(s: DropdownStaff): bool {
    s.role.Some? && s.role.value.canAccessAccountMaster == Some(true)
  }

  /** The staff dropdown: the members whose role grants the account master, `[]` without data. */
  function AccessStaff(data: Option<seq<DropdownStaff>>): (r: seq<DropdownStaff>)
    ensures forall s :: s in r <==> s in data.GetOr([]) && s.role.Some? && s.role.value.canAccessAccountMaster == Some(true)
    ensures IsSubseq(r, data.GetOr([]))
    ensures data.None? ==> r == []
  {
    Filter(data.GetOr([]), HasAccountMasterAccess)
  }

  /** The body of an update or a create: the form's fields, an empty assignee sent as null. */
  function PayloadOf(f: AccountForm): (p: AccountPayload)
    ensures p.assignBy.None? <==> f.assignById == ""
    ensures p.assignBy.Some? ==> p.assignBy.value == f.assignById
    ensures p.address == PayloadAddress(f.line1, f.line2, f.cityName, f.stateName, f.countryName)
    ensures p.companyName == f.companyName && p.clientName == f.clientName && p.mobile == f.mobile
    ensures p.email == f.email && p.website == f.website && p.sourcebyTypeOfClient == f.sourcebyTypeOfClient
    ensures p.sourceFrom == f.sourceFrom && p.remark == f.remark
  {
    AccountPayload(
      f.companyName, f.clientName,
      PayloadAddress(f.line1, f.line2, f.cityName, f.stateName, f.countryName),
      f.mobile, f.email, f.website, f.sourcebyTypeOfClient, f.sourceFrom,
      if f.assignById == "" then None else Some(f.assignById),
      f.remark)
  }

  /** An address part `row.address?.part || ""`. */
  function AddressPart(a: Option<Address>, part: Address -> Option<string>): (r: string)
    ensures a.None? ==> r == ""
    ensures a.Some? ==> r == OrEmpty(part(a.value))
  {
    if a.None? then "" else OrEmpty(part(a.value))
  }

  /** The form `handleEdit` fills from a row: every missing optional field reads as "". */
  function EditFormOf(row: AccountRow): (f: AccountForm)
    ensures f.line1 == AddressPart(row.address, (x: Address) => x.line1)
    ensures f.countryName == AddressPart(row.address, (x: Address) => x.countryName)
    ensures row.address.None? ==> f.line1 == f.line2 == f.cityName == f.stateName == f.countryName == ""
    ensures row.address.Some? ==>
      var a := row.address.value;
      && f.line1 == OrEmpty(a.line1) && f.line2 == OrEmpty(a.line2) && f.cityName == OrEmpty(a.cityName)
      && f.stateName == OrEmpty(a.stateName) && f.countryName == OrEmpty(a.countryName)
    ensures f.sourceFrom == OrEmpty(row.sourceFrom) && f.remark == OrEmpty(row.remark)
    ensures f.assignById == if row.assignBy.Some? then row.assignBy.value.id else ""
    ensures f.companyName == row.companyName && f.clientName == row.clientName && f.mobile == row.mobile
    ensures f.email == row.email && f.website == row.website && f.sourcebyTypeOfClient == row.sourcebyTypeOfClient
  {
    AccountForm(
      row.companyName, row.clientName,
      AddressPart(row.address, (x: Address) => x.line1),
      AddressPart(row.address, (x: Address) => x.line2),
      AddressPart(row.address, (x: Address) => x.cityName),
      AddressPart(row.address, (x: Address) => x.stateName),
      AddressPart(row.address, (x: Address) => x.countryName),
      row.mobile, row.email, row.website, row.sourcebyTypeOfClient,
      OrEmpty(row.sourceFrom),
      if row.assignBy.Some? then row.assignBy.value.id else "",
      OrEmpty(row.remark))
  }

  /**
   * Editing an account and saving it unchanged sends its assignee back (null when it had none
   * or an empty id), its optional text fields and address parts as "" when missing (the whole
   * address as five empty parts when it had none), and its other fields as they were.
   */
  lemma EditThenSave(row: AccountRow)
    ensures var p := PayloadOf(EditFormOf(row));
      (p.assignBy.Some? <==> row.assignBy.Some? && row.assignBy.value.id != "")
      && (p.assignBy.Some? ==> p.assignBy.value == row.assignBy.value.id)
      && p.sourceFrom == OrEmpty(row.sourceFrom) && p.remark == OrEmpty(row.remark)
      && p.companyName == row.companyName && p.clientName == row.clientName
      && p.mobile == row.mobile && p.email == row.email && p.website == row.website
      && p.sourcebyTypeOfClient == row.sourcebyTypeOfClient
    ensures row.address.None? ==> PayloadOf(EditFormOf(row)).address == PayloadAddress("", "", "", "", "")
    ensures row.address.Some? ==>
      var a := row.address.value;
      PayloadOf(EditFormOf(row)).address
        == PayloadAddress(OrEmpty(a.line1), OrEmpty(a.line2), OrEmpty(a.cityName), OrEmpty(a.stateName), OrEmpty(a.countryName))
  {
  }

  /** The page's state. */
  class AccountMasterPage {
    var accounts: seq<AccountRow>
    var staffList: seq<DropdownStaff>
    var form: AccountForm
    var editMode: EditMode
    var open: bool
    var confirmOpen: bool
    var loading: bool
    var deleteOpen: bool
    var deleteId: Option<string>
    var totalPages: int
    var totalRecords: int

    /** A fresh page shows its loading state until the first fetch ends. */
    constructor ()
      ensures accounts == [] && staffList == [] && form == EmptyForm && editMode == NotEditing
      ensures !open && !confirmOpen && loading && !deleteOpen && deleteId == None
      ensures totalPages == 1 && totalRecords == 0
    {
      accounts := [];
      staffList := [];
      form := EmptyForm;
      editMode := NotEditing;
      open := false;
      confirmOpen := false;
      loading := true;
      deleteOpen := false;
      deleteId := None;
      totalPages := 1;
      totalRecords := 0;
    }

    /**
     * `fetchAccounts`, given the stored view type and staff id: the visible accounts and the
     * counts with their fallbacks; loading is up during the request and down on every path.
     */
    method FetchAccounts(reply: Response<AccountsReply>, viewType: Option<string>, staffId: Option<string>)
      returns (loadingDuringRequest: bool)
      modifies this`accounts, this`totalPages, this`totalRecords, this`loading
      ensures loadingDuringRequest && !loading
      ensures reply.Ok? ==>
        (accounts == VisibleAccounts(reply.body.data, viewType, staffId)
         && totalPages == TotalPagesOr1(reply.body.pagination)
         && totalRecords == TotalRecordsOr0(reply.body.pagination))
      ensures reply.Failed? ==>
        accounts == old(accounts) && totalPages == old(totalPages) && totalRecords == old(totalRecords)
    {
      loading := true;
      loadingDuringRequest := loading;
      if reply.Ok? {
        accounts := VisibleAccounts(reply.body.data, viewType, staffId);
        totalPages := TotalPagesOr1(reply.body.pagination);
        totalRecords := TotalRecordsOr0(reply.body.pagination);
      }
      loading := false;
    }

    /** `fetchStaff`: the dropdown keeps the members allowed the account master. */
    method FetchStaff(reply: Response<Option<seq<DropdownStaff>>>)
      modifies this`staffList
      ensures staffList == if reply.Ok? then AccessStaff(reply.body) else old(staffList)
    {
      if reply.Ok? {
        staffList := AccessStaff(reply.body);
      }
    }

    /** `resetForm`: the empty form, out of edit mode. */
    method ResetForm()
      modifies this`form, this`editMode
      ensures form == EmptyForm && editMode == NotEditing
    {
      form := EmptyForm;
      editMode := NotEditing;
    }

    /** `handleEdit`: the form takes the row with its defaults, the dropdown reloads and the dialog opens. */
    method HandleEdit(row: AccountRow, staffReply: Response<Option<seq<DropdownStaff>>>)
      modifies this`form, this`editMode, this`open, this`staffList
      ensures form == EditFormOf(row) && editMode == EditMode(true, row.id) && open
      ensures staffList == if staffReply.Ok? then AccessStaff(staffReply.body) else old(staffList)
    {
      form := EditFormOf(row);
      editMode := EditMode(true, row.id);
      FetchStaff(staffReply);
      open := true;
    }

    /** The "Add Account" button: the empty form, out of edit mode, the dialog open and the dropdown reloaded. */
    method OpenAdd(staffReply: Response<Option<seq<DropdownStaff>>>)
      modifies this`form, this`editMode, this`open, this`staffList
      ensures form == EmptyForm && editMode == NotEditing && open
      ensures staffList == if staffReply.Ok? then AccessStaff(staffReply.body) else old(staffList)
    {
      ResetForm();
      open := true;
      FetchStaff(staffReply);
    }

    /** The delete button of a row: the confirmation opens for the row's id. */
    method AskDelete(row: AccountRow)
      modifies this`deleteOpen, this`deleteId
      ensures deleteOpen && deleteId == row.id
    {
      deleteOpen := true;
      deleteId := row.id;
    }

    /**
     * `handleDelete`: nothing without an id; on success the accounts with the id are gone. The
     * confirmation's state is left as it was.
     */
    method HandleDelete(reply: Ack) returns (sent: Option<string>)
      modifies this`accounts
      ensures sent.Some? <==> Truthy(deleteId)
      ensures sent.Some? ==> sent == deleteId
      ensures sent.Some? && reply.Ok? ==> accounts == RemoveById(old(accounts), AccountId, deleteId.value)
      ensures sent.None? || reply.Failed? ==> accounts == old(accounts)
    {
      if !Truthy(deleteId) {
        return None;
      }
      sent := deleteId;
      if reply.Ok? {
        accounts := RemoveById(accounts, AccountId, deleteId.value);
      }
    }

    /**
     * `handleUpdate`: nothing without an id; otherwise the payload is put, and on success the
     * list is fetched again before the dialog closes and the form resets.
     */
    method HandleUpdate(reply: Ack, refetch: Response<AccountsReply>, viewType: Option<string>, staffId: Option<string>)
      returns (request: Request<AccountPayload>)
      modifies this`accounts, this`totalPages, this`totalRecords, this`loading
      modifies this`form, this`editMode, this`open
      ensures !Truthy(old(editMode.id)) ==>
        (request == NoRequest && accounts == old(accounts)
         && form == old(form) && editMode == old(editMode) && open == old(open))
      ensures Truthy(old(editMode.id)) ==> request == Put(old(editMode.id).value, PayloadOf(old(form)))
      ensures Truthy(old(editMode.id)) && reply.Ok? ==>
        (accounts == (if refetch.Ok? then VisibleAccounts(refetch.body.data, viewType, staffId) else old(accounts))
         && !loading && !open && form == EmptyForm && editMode == NotEditing)
      ensures Truthy(old(editMode.id)) && reply.Ok? && refetch.Ok? ==>
        (totalPages == TotalPagesOr1(refetch.body.pagination)
         && totalRecords == TotalRecordsOr0(refetch.body.pagination))
      ensures Truthy(old(editMode.id)) && reply.Ok? && refetch.Failed? ==>
        totalPages == old(totalPages) && totalRecords == old(totalRecords)
      ensures !Truthy(old(editMode.id)) || reply.Failed? ==>
        (totalPages == old(totalPages) && totalRecords == old(totalRecords) && loading == old(loading))
      ensures reply.Failed? ==>
        (accounts == old(accounts) && form == old(form) && editMode == old(editMode) && open == old(open))
    {
      if !Truthy(editMode.id) {
        return NoRequest;
      }
      request := Put(editMode.id.value, PayloadOf(form));
      if reply.Ok? {
        var _ := FetchAccounts(refetch, viewType, staffId);
        open := false;
        ResetForm();
      }
    }

    /** `handleSubmit`: submitting the form only opens the confirmation. */
    method HandleSubmit()
      modifies this`confirmOpen
      ensures confirmOpen
    {
      confirmOpen := true;
    }

    /** The confirmation's close button: it closes, and nothing is sent. */
    method CloseConfirm()
      modifies this`confirmOpen
      ensures !confirmOpen
    {
      confirmOpen := false;
    }

    /**
     * `confirmSubmit`: update in edit mode; otherwise post the payload and, on success, fetch
     * the list again, close the dialog and reset the form.
     */
    method ConfirmSubmit(reply: Ack, refetch: Response<AccountsReply>, viewType: Option<string>, staffId: Option<string>)
      returns (request: Request<AccountPayload>)
      modifies this`accounts, this`totalPages, this`totalRecords, this`loading
      modifies this`form, this`editMode, this`open
      ensures old(editMode.isEdit) && Truthy(old(editMode.id)) ==>
        request == Put(old(editMode.id).value, PayloadOf(old(form)))
      ensures old(editMode.isEdit) && !Truthy(old(editMode.id)) ==>
        (request == NoRequest && accounts == old(accounts)
         && form == old(form) && editMode == old(editMode) && open == old(open))
      ensures !old(editMode.isEdit) ==> request == Post(PayloadOf(old(form)))
      ensures reply.Ok? && (!old(editMode.isEdit) || Truthy(old(editMode.id))) ==>
        (accounts == (if refetch.Ok? then VisibleAccounts(refetch.body.data, viewType, staffId) else old(accounts))
         && !loading && !open && form == EmptyForm && editMode == NotEditing)
      ensures reply.Ok? && (!old(editMode.isEdit) || Truthy(old(editMode.id))) && refetch.Ok? ==>
        (totalPages == TotalPagesOr1(refetch.body.pagination)
         && totalRecords == TotalRecordsOr0(refetch.body.pagination))
      ensures reply.Ok? && (!old(editMode.isEdit) || Truthy(old(editMode.id))) && refetch.Failed? ==>
        totalPages == old(totalPages) && totalRecords == old(totalRecords)
      ensures reply.Failed? || (old(editMode.isEdit) && !Truthy(old(editMode.id))) ==>
        (totalPages == old(totalPages) && totalRecords == old(totalRecords) && loading == old(loading))
      ensures reply.Failed? ==>
        (accounts == old(accounts) && form == old(form) && editMode == old(editMode) && open == old(open))
    {
      if editMode.isEdit {
        request := HandleUpdate(reply, refetch, viewType, staffId);
      } else {
        request := Post(PayloadOf(form));
        if reply.Ok? {
          var _ := FetchAccounts(refetch, viewType, staffId);
          open := false;
          ResetForm();
        }
      }
    }
  }
}
