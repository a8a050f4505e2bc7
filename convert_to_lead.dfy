/**
 * The order-line builder of the "Convert to Lead" page: the list of product rows, the
 * per-row and grand totals, the field edits with their resets, the ordered validation
 * messages and the payload sent to the backend.
 */
module ConvertToLead {
  import opened Wrappers
  import opened Lists
  import opened Text

  datatype Personalization = Yes | No

  /** One order line. Money and GST percentages are exact reals; `qty` is the parsed integer. */
  datatype ProductRow = ProductRow(
    id: string,
    inquiryCategoryId: string,
    modelSuggestionId: string,
    customizationTypeId: string,
    personalization: Personalization,
    location: Option<string>,
    name: Option<string>,
    description: string,
    qty: int,
    rate: real,
    gst: real,
    total: real)

  /** A model of a category, with its rate and GST (`None` when the backend sent none). */
  datatype ModelSuggestion = ModelSuggestion(id: string, rate: real, gst: Option<real>)

  /** The models already fetched, by category id. */
  type ModelCache = map<string, seq<ModelSuggestion>>

  /** A call `updateProduct(id, field, value)`, one constructor per field the form edits. */
  datatype Edit =
    | SetCategory(category: string)
    | SetModel(model: string)
    | SetCustomization(customization: string)
    | SetPersonalization(personalization: Personalization)
    | SetLocation(location: string)
    | SetName(name: string)
    | SetDescription(description: string)
    | SetQty(qty: int)
    | SetRate(rate: real)
    | SetGst(gst: real)

  /** The row that a new page and `addProduct` start from. */
  function DefaultRow(id: string): (r: ProductRow)
    ensures r.id == id && r.qty == 1 && r.rate == 0.0 && r.gst == 0.0 && r.total == 0.0
    ensures r.personalization == No && r.name == Some("") && r.location == None
    ensures r.inquiryCategoryId == "" && r.modelSuggestionId == "" && r.customizationTypeId == "" && r.description == ""
  {
    ProductRow(id, "", "", "", No, None, Some(""), "", 1, 0.0, 0.0, 0.0)
  }

  /**
   * `calculateTotal`: the subtotal plus GST on it, that is the GST-inclusive price of the
   * quantity; without GST just the subtotal, and nothing for no quantity or no rate.
   */
  function RowTotal(qty: int, rate: real, gst: real): (r: real)
    ensures r == qty as real * rate * (1.0 + gst / 100.0)
    ensures gst == 0.0 ==> r == qty as real * rate
    ensures qty == 0 || rate == 0.0 ==> r == 0.0
  {
    var subtotal := qty as real * rate;
    subtotal + subtotal * gst / 100.0
  }

  /** The row's stored total agrees with its quantity, rate and GST. */
  predicate TotalIsCurrent(p: ProductRow) {
    p.total == RowTotal(p.qty, p.rate, p.gst)
  }

  /** `models.find(m => m._id === id)`: the first model with that id. */
  function FindModel(models: seq<ModelSuggestion>, id: string): (r: Option<ModelSuggestion>)
    ensures r.None? <==> forall k :: 0 <= k < |models| ==> models[k].id != id
    ensures r.Some? ==> exists k :: (0 <= k < |models| && models[k] == r.value && r.value.id == id
      && forall j :: 0 <= j < k ==> models[j].id != id)
  {
    if models == [] then None
    else if models[0].id == id then Some(models[0])
    else
      var r := FindModel(models[1..], id);
      assert r.Some? ==> exists k :: (0 <= k < |models| && models[k] == r.value && r.value.id == id
        && forall j :: 0 <= j < k ==> models[j].id != id) by {
        if r.Some? {
          var k :| (0 <= k < |models| - 1 && models[1..][k] == r.value && r.value.id == id
            && forall j :: 0 <= j < k ==> models[1..][j].id != id);
          assert models[k + 1] == r.value;
          forall j | 0 <= j < k + 1
            ensures models[j].id != id
          {
            if j > 0 {
              assert models[j] == models[1..][j - 1];
            }
          }
        }
      }
      r
  }

  /** `allModelSuggestions[categoryId] || []`. */
  function CachedModels(cache: ModelCache, categoryId: string): seq<ModelSuggestion> {
    if categoryId in cache then cache[categoryId] else []
  }

  /** The new value of the row whose id matches, for one edit. */
  function ApplyEdit(p: ProductRow, e: Edit, cache: ModelCache): (r: ProductRow)
    ensures r.id == p.id
    ensures e.SetCategory? && e.category != "" ==>
      r == p.(inquiryCategoryId := e.category, modelSuggestionId := "", rate := 0.0, gst := 0.0)
    ensures e.SetCategory? && e.category == "" ==> r == p.(inquiryCategoryId := "")
    ensures e.SetModel? && e.model != "" && FindModel(CachedModels(cache, p.inquiryCategoryId), e.model).Some? ==>
      var m := FindModel(CachedModels(cache, p.inquiryCategoryId), e.model).value;
      && r == p.(modelSuggestionId := e.model, rate := m.rate, gst := m.gst.GetOr(0.0), total := r.total)
      && TotalIsCurrent(r)
    ensures e.SetModel? && (e.model == "" || FindModel(CachedModels(cache, p.inquiryCategoryId), e.model).None?) ==>
      r == p.(modelSuggestionId := e.model)
    ensures e.SetQty? ==> r == p.(qty := e.qty, total := r.total) && TotalIsCurrent(r)
    ensures e.SetRate? ==> r == p.(rate := e.rate, total := r.total) && TotalIsCurrent(r)
    ensures e.SetGst? ==> r == p.(gst := e.gst, total := r.total) && TotalIsCurrent(r)
    ensures e.SetCustomization? ==> r == p.(customizationTypeId := e.customization)
    ensures e.SetPersonalization? ==> r == p.(personalization := e.personalization)
    ensures e.SetLocation? ==> r == p.(location := Some(e.location))
    ensures e.SetName? ==> r == p.(name := Some(e.name))
    ensures e.SetDescription? ==> r == p.(description := e.description)
  {
    match e
    case SetCategory(v) =>
      if v != "" then p.(inquiryCategoryId := v, modelSuggestionId := "", rate := 0.0, gst := 0.0)
      else p.(inquiryCategoryId := v)
    case SetModel(v) =>
      var updated := p.(modelSuggestionId := v);
      if v == "" then updated
      else
        (match FindModel(CachedModels(cache, p.inquiryCategoryId), v)
         case None => updated
         case Some(m) =>
           var priced := updated.(rate := m.rate, gst := m.gst.GetOr(0.0));
           priced.(total := RowTotal(priced.qty, priced.rate, priced.gst)))
    case SetCustomization(v) => p.(customizationTypeId := v)
    case SetPersonalization(v) => p.(personalization := v)
    case SetLocation(v) => p.(location := Some(v))
    case SetName(v) => p.(name := Some(v))
    case SetDescription(v) => p.(description := v)
    case SetQty(q) => p.(qty := q, total := RowTotal(q, p.rate, p.gst))
    case SetRate(x) => p.(rate := x, total := RowTotal(p.qty, x, p.gst))
    case SetGst(g) => p.(gst := g, total := RowTotal(p.qty, p.rate, g))
  }

  /**
   * Choosing a category keeps the old total while zeroing rate and GST, so a priced row
   * goes on contributing its old total until a model or a number is entered again.
   */
  lemma CategoryChangeKeepsStaleTotal()
    ensures var p := ProductRow("1", "c1", "m1", "", No, None, Some(""), "", 1, 100.0, 18.0, 118.0);
      && TotalIsCurrent(p)
      && var r := ApplyEdit(p, SetCategory("c2"), map[]);
      r.rate == 0.0 && r.gst == 0.0 && r.total == 118.0 && !TotalIsCurrent(r)
  {
  }

  /** `prev.map(p => p.id !== id ? p : ...)`: the edit applied to every row with that id. */
  function UpdateProducts(ps: seq<ProductRow>, id: string, e: Edit, cache: ModelCache): (r: seq<ProductRow>)
    ensures |r| == |ps|
    ensures forall i :: 0 <= i < |ps| ==> r[i].id == ps[i].id
    ensures forall i :: 0 <= i < |ps| && ps[i].id != id ==> r[i] == ps[i]
    ensures forall i :: 0 <= i < |ps| && ps[i].id == id ==> r[i] == ApplyEdit(ps[i], e, cache)
  {
    seq(|ps|, i requires 0 <= i < |ps| => if ps[i].id != id then ps[i] else ApplyEdit(ps[i], e, cache))
  }

  /**
   * Once every total is current, every edit but choosing a category keeps them current: the
   * numeric edits and a found model recompute the edited row's total, and the other fields
   * do not enter it. `CategoryChangeKeepsStaleTotal` shows the exception.
   */
  lemma EditsKeepTotalsCurrent(ps: seq<ProductRow>, id: string, e: Edit, cache: ModelCache)
    requires forall i :: 0 <= i < |ps| ==> TotalIsCurrent(ps[i])
    requires !(e.SetCategory? && e.category != "")
    ensures var r := UpdateProducts(ps, id, e, cache);
      forall i :: 0 <= i < |r| ==> TotalIsCurrent(r[i])
  {
    var r := UpdateProducts(ps, id, e, cache);
    forall i | 0 <= i < |r|
      ensures TotalIsCurrent(r[i])
    {
      if ps[i].id == id {
        assert r[i] == ApplyEdit(ps[i], e, cache);
      }
    }
  }

  /** The sum of the row totals, `products.reduce((sum, p) => sum + p.total, 0)`. */
  function SumTotals(ps: seq<ProductRow>): real {
    if ps == [] then 0.0 else ps[0].total + SumTotals(ps[1..])
  }

  lemma {:induction false} SumTotalsAppend(a: seq<ProductRow>, b: seq<ProductRow>)
    ensures SumTotals(a + b) == SumTotals(a) + SumTotals(b)
  {
    if a == [] {
      assert a + b == b;
    } else {
      assert (a + b)[1..] == a[1..] + b;
      SumTotalsAppend(a[1..], b);
    }
  }

  /** `calculateGrandTotal`: row totals plus the parsed shipping, unparsable shipping counting as 0. */
  function GrandTotal(ps: seq<ProductRow>, shipping: Option<real>): real {
    SumTotals(ps) + shipping.GetOr(0.0)
  }

  /** Appending a default row does not change the grand total. */
  lemma AddingRowKeepsGrandTotal(ps: seq<ProductRow>, id: string, shipping: Option<real>)
    ensures GrandTotal(ps + [DefaultRow(id)], shipping) == GrandTotal(ps, shipping)
  {
    SumTotalsAppend(ps, [DefaultRow(id)]);
    assert [DefaultRow(id)][1..] == [];
  }

  /** Removing row `k` lowers the grand total by exactly that row's total. */
  lemma RemovingRowSubtractsItsTotal(ps: seq<ProductRow>, k: nat, shipping: Option<real>)
    requires k < |ps|
    ensures GrandTotal(ps[..k] + ps[k + 1..], shipping) == GrandTotal(ps, shipping) - ps[k].total
  {
    assert ps == ps[..k] + [ps[k]] + ps[k + 1..];
    SumTotalsAppend(ps[..k] + [ps[k]], ps[k + 1..]);
    SumTotalsAppend(ps[..k], [ps[k]]);
    SumTotalsAppend(ps[..k], ps[k + 1..]);
    assert [ps[k]][1..] == [];
  }

  /** `p => p.id !== id`. */
  function IdIsNot(id: string): ProductRow -> bool {
    (p: ProductRow) => p.id != id
  }

  /** Ids are unique across the rows (the page draws them from the clock). */
  ghost predicate UniqueIds(ps: seq<ProductRow>) {
    forall i, j :: 0 <= i < j < |ps| ==> ps[i].id != ps[j].id
  }

  /** Dropping one position keeps ids unique. */
  lemma UniqueIdsWithout(ps: seq<ProductRow>, k: nat)
    requires UniqueIds(ps) && k < |ps|
    ensures UniqueIds(ps[..k] + ps[k + 1..])
  {
    var r := ps[..k] + ps[k + 1..];
    forall i, j | 0 <= i < j < |r|
      ensures r[i].id != r[j].id
    {
      var i', j' := if i < k then i else i + 1, if j < k then j else j + 1;
      assert r[i] == ps[i'] && r[j] == ps[j'];
    }
  }

  /**
   * Filtering out an id of a list with unique ids removes the one row carrying it, or
   * nothing when no row carries it.
   */
  lemma RemovedById(ps: seq<ProductRow>, id: string)
    requires UniqueIds(ps)
    ensures UniqueIds(Filter(ps, IdIsNot(id)))
    ensures forall k :: 0 <= k < |ps| && ps[k].id == id ==> Filter(ps, IdIsNot(id)) == ps[..k] + ps[k + 1..]
    ensures (forall k :: 0 <= k < |ps| ==> ps[k].id != id) ==> Filter(ps, IdIsNot(id)) == ps
  {
    if k :| 0 <= k < |ps| && ps[k].id == id {
      FilterDropsOne(ps, IdIsNot(id), k);
      UniqueIdsWithout(ps, k);
    } else {
      FilterKeepsAll(ps, IdIsNot(id));
    }
  }

  /** The header fields the validation reads; `accountId` comes from the query string. */
  datatype Header = Header(
    accountId: Option<string>,
    leadDate: string,
    clientType: string,
    deliveryDate: string,
    shippingCharges: string,
    budgetFrom: string,
    budgetTo: string)

  /** The account id is usable: present, non-empty and not the text "undefined". */
  predicate HasAccount(h: Header) {
    h.accountId.Some? && h.accountId.value != "" && h.accountId.value != "undefined"
  }

  /** What a product row can lack. */
  datatype RowProblem = NoCategory | NoModel | NoCustomization | NoDescription | QtyNotPositive

  /** A validation message; `MessageText` gives the text the page shows. */
  datatype Message =
    | AccountIdRequired
    | LeadDateRequired
    | ClientTypeRequired
    | DeliveryDateRequired
    | ProductProblem(row: nat, problem: RowProblem)

  function ProblemText(p: RowProblem): string {
    match p
    case NoCategory => "Inquiry Category is required"
    case NoModel => "Model Suggestion is required"
    case NoCustomization => "Customization Type is required"
    case NoDescription => "Description is required"
    case QtyNotPositive => "Quantity must be greater than 0"
  }

  /** The text of a message; a row's messages read `Product <n>: <problem>`. */
  function MessageText(m: Message): string {
    match m
    case AccountIdRequired => "Account ID is required"
    case LeadDateRequired => "Lead Date is required"
    case ClientTypeRequired => "Client Type is required"
    case DeliveryDateRequired => "Delivery Date is required"
    case ProductProblem(n, p) => "Product " + NatToDecimal(n) + ": " + ProblemText(p)
  }

  /** A row's message begins with the row's number. */
  lemma MessageTextNumbered(n: nat, p: RowProblem)
    ensures var prefix := "Product " + NatToDecimal(n) + ": ";
      |prefix| <= |MessageText(ProductProblem(n, p))| && MessageText(ProductProblem(n, p))[..|prefix|] == prefix
  {
    var prefix := "Product " + NatToDecimal(n) + ": ";
    assert MessageText(ProductProblem(n, p)) == prefix + ProblemText(p);
  }

  function IfFails(failed: bool, m: Message): seq<Message> {
    if failed then [m] else []
  }

  /** The header messages, in the order the page checks them. */
  function HeaderErrors(h: Header): seq<Message> {
    IfFails(!HasAccount(h), AccountIdRequired)
    + IfFails(h.leadDate == "", LeadDateRequired)
    + IfFails(h.clientType == "", ClientTypeRequired)
    + IfFails(h.deliveryDate == "", DeliveryDateRequired)
  }

  /** The messages about one row, numbered `n`, in the order the page checks them. */
  function RowErrors(p: ProductRow, n: nat): seq<Message> {
    IfFails(p.inquiryCategoryId == "", ProductProblem(n, NoCategory))
    + IfFails(p.modelSuggestionId == "", ProductProblem(n, NoModel))
    + IfFails(p.customizationTypeId == "", ProductProblem(n, NoCustomization))
    + IfFails(p.description == "", ProductProblem(n, NoDescription))
    + IfFails(p.qty <= 0, ProductProblem(n, QtyNotPositive))
  }

  /** The messages about the rows of `ps`, numbering them from `first`. */
  function AllRowErrors(ps: seq<ProductRow>, first: nat): seq<Message>
    decreases |ps|
  {
    if ps == [] then [] else RowErrors(ps[0], first) + AllRowErrors(ps[1..], first + 1)
  }

  /** The row messages are the rows' pieces laid end to end, numbered from `first`. */
  lemma {:induction false} AllRowErrorsNumbered(ps: seq<ProductRow>, first: nat)
    ensures AllRowErrors(ps, first) == NumberedConcat(ps, first, RowErrors)
  {
    if ps != [] {
      AllRowErrorsNumbered(ps[1..], first + 1);
    }
  }

  lemma AllRowErrorsSnoc(ps: seq<ProductRow>, p: ProductRow, first: nat)
    ensures AllRowErrors(ps + [p], first) == AllRowErrors(ps, first) + RowErrors(p, first + |ps|)
  {
    AllRowErrorsNumbered(ps + [p], first);
    AllRowErrorsNumbered(ps, first);
    NumberedConcatSnoc(ps, p, first, RowErrors);
  }

  lemma ConcatAssoc<T>(a: seq<T>, b: seq<T>, c: seq<T>)
    ensures a + (b + c) == a + b + c
  {
  }

  /** A header the page accepts. */
  predicate HeaderOk(h: Header) {
    HasAccount(h) && h.leadDate != "" && h.clientType != "" && h.deliveryDate != ""
  }

  /** A row the page accepts. */
  predicate RowOk(p: ProductRow) {
    p.inquiryCategoryId != "" && p.modelSuggestionId != "" && p.customizationTypeId != ""
    && p.description != "" && p.qty > 0
  }

  lemma HeaderErrorsEmpty(h: Header)
    ensures HeaderErrors(h) == [] <==> HeaderOk(h)
    ensures |HeaderErrors(h)| <= 4
    ensures forall k :: 0 <= k < |HeaderErrors(h)| ==> !HeaderErrors(h)[k].ProductProblem?
  {
  }

  /** Every message of `ms` is about row `n`. */
  predicate AllAbout(ms: seq<Message>, n: nat) {
    forall k :: 0 <= k < |ms| ==> ms[k].ProductProblem? && ms[k].row == n
  }

  lemma AllAboutAppend(a: seq<Message>, b: seq<Message>, n: nat)
    requires AllAbout(a, n) && AllAbout(b, n)
    ensures AllAbout(a + b, n)
  {
    forall k | |a| <= k < |a + b|
      ensures (a + b)[k].ProductProblem? && (a + b)[k].row == n
    {
      assert (a + b)[k] == b[k - |a|];
    }
  }

  lemma RowErrorsEmpty(p: ProductRow, n: nat)
    ensures RowErrors(p, n) == [] <==> RowOk(p)
    ensures |RowErrors(p, n)| <= 5
    ensures forall k :: 0 <= k < |RowErrors(p, n)| ==> RowErrors(p, n)[k].ProductProblem? && RowErrors(p, n)[k].row == n
  {
    var e1 := IfFails(p.inquiryCategoryId == "", ProductProblem(n, NoCategory));
    var e2 := IfFails(p.modelSuggestionId == "", ProductProblem(n, NoModel));
    var e3 := IfFails(p.customizationTypeId == "", ProductProblem(n, NoCustomization));
    var e4 := IfFails(p.description == "", ProductProblem(n, NoDescription));
    var e5 := IfFails(p.qty <= 0, ProductProblem(n, QtyNotPositive));
    assert RowErrors(p, n) == e1 + e2 + e3 + e4 + e5;
    AllAboutAppend(e1, e2, n);
    AllAboutAppend(e1 + e2, e3, n);
    AllAboutAppend(e1 + e2 + e3, e4, n);
    AllAboutAppend(e1 + e2 + e3 + e4, e5, n);
    assert AllAbout(RowErrors(p, n), n);
  }

  /**
   * Pieces that each speak only of their own row number, laid end to end, come in row order:
   * every message names a row between `first` and `first + |ps| - 1`, and the row numbers never
   * decrease.
   */
  lemma {:induction false} NumberedInRowOrder(ps: seq<ProductRow>, first: nat, f: (ProductRow, nat) -> seq<Message>)
    requires forall p, n :: AllAbout(f(p, n), n)
    ensures forall k :: 0 <= k < |NumberedConcat(ps, first, f)| ==>
      NumberedConcat(ps, first, f)[k].ProductProblem? && first <= NumberedConcat(ps, first, f)[k].row < first + |ps|
    ensures forall k, l :: 0 <= k < l < |NumberedConcat(ps, first, f)| ==>
      NumberedConcat(ps, first, f)[k].row <= NumberedConcat(ps, first, f)[l].row
  {
    if ps != [] {
      var head, tail := f(ps[0], first), NumberedConcat(ps[1..], first + 1, f);
      assert AllAbout(head, first);
      NumberedInRowOrder(ps[1..], first + 1, f);
      var all := head + tail;
      forall k | 0 <= k < |all|
        ensures all[k].ProductProblem? && first <= all[k].row < first + |ps|
      {
        if k >= |head| {
          assert all[k] == tail[k - |head|];
        }
      }
      forall k, l | 0 <= k < l < |all|
        ensures all[k].row <= all[l].row
      {
        if l < |head| {
        } else if k >= |head| {
          assert all[k] == tail[k - |head|] && all[l] == tail[l - |head|];
        } else {
          assert all[l] == tail[l - |head|];
        }
      }
    }
  }

  /**
   * The row messages come in row order: every message about the rows of `ps` names a row
   * between `first` and `first + |ps| - 1`, and the row numbers never decrease.
   */
  lemma AllRowErrorsOrdered(ps: seq<ProductRow>, first: nat)
    ensures forall k :: 0 <= k < |AllRowErrors(ps, first)| ==>
      AllRowErrors(ps, first)[k].ProductProblem? && first <= AllRowErrors(ps, first)[k].row < first + |ps|
    ensures forall k, l :: 0 <= k < l < |AllRowErrors(ps, first)| ==>
      AllRowErrors(ps, first)[k].row <= AllRowErrors(ps, first)[l].row
  {
    forall p, n ensures AllAbout(RowErrors(p, n), n) {
      RowErrorsEmpty(p, n);
    }
    AllRowErrorsNumbered(ps, first);
    NumberedInRowOrder(ps, first, RowErrors);
  }

  lemma {:induction false} AllRowErrorsEmpty(ps: seq<ProductRow>, first: nat)
    ensures AllRowErrors(ps, first) == [] <==> forall i :: 0 <= i < |ps| ==> RowOk(ps[i])
  {
    if ps != [] {
      AllRowErrorsEmpty(ps[1..], first + 1);
      RowErrorsEmpty(ps[0], first);
      if forall i :: 0 <= i < |ps| - 1 ==> RowOk(ps[1..][i]) {
        assert forall i :: 1 <= i < |ps| ==> RowOk(ps[i]) by {
          forall i | 1 <= i < |ps| ensures RowOk(ps[i]) {
            assert ps[i] == ps[1..][i - 1];
          }
        }
      }
    }
  }

  /** At most five messages per row. */
  lemma {:induction false} AllRowErrorsLength(ps: seq<ProductRow>, first: nat)
    ensures |AllRowErrors(ps, first)| <= 5 * |ps|
  {
    if ps != [] {
      RowErrorsEmpty(ps[0], first);
      AllRowErrorsLength(ps[1..], first + 1);
    }
  }

  /** One more row's messages extend the messages of the rows before it. */
  lemma ValidateStep(hdr: seq<Message>, ps: seq<ProductRow>, i: nat, before: seq<Message>, after: seq<Message>)
    requires i < |ps|
    requires before == hdr + AllRowErrors(ps[..i], 1)
    requires after == before + RowErrors(ps[i], i + 1)
    ensures after == hdr + AllRowErrors(ps[..i + 1], 1)
  {
    AllRowErrorsSnoc(ps[..i], ps[i], 1);
    TakeSnoc(ps, i);
    ConcatAssoc(hdr, AllRowErrors(ps[..i], 1), RowErrors(ps[i], i + 1));
  }

  /** The header checks of `handleConvertLead`, pushed in the page's order. */
  method CheckHeader(h: Header) returns (errs: seq<Message>)
    ensures errs == HeaderErrors(h)
    ensures errs == [] <==> HeaderOk(h)
  {
    errs := [];
    if !HasAccount(h) { errs := errs + [AccountIdRequired]; }
    if h.leadDate == "" { errs := errs + [LeadDateRequired]; }
    if h.clientType == "" { errs := errs + [ClientTypeRequired]; }
    if h.deliveryDate == "" { errs := errs + [DeliveryDateRequired]; }
    HeaderErrorsEmpty(h);
  }

  /** The checks of one product row, numbered `n`, pushed in the page's order. */
  method CheckRow(p: ProductRow, n: nat) returns (errs: seq<Message>)
    ensures errs == RowErrors(p, n)
    ensures errs == [] <==> RowOk(p)
  {
    var e1, e2, e3 := IfFails(p.inquiryCategoryId == "", ProductProblem(n, NoCategory)),
      IfFails(p.modelSuggestionId == "", ProductProblem(n, NoModel)),
      IfFails(p.customizationTypeId == "", ProductProblem(n, NoCustomization));
    var e4 := IfFails(p.description == "", ProductProblem(n, NoDescription));
    errs := [];
    if p.inquiryCategoryId == "" { errs := errs + [ProductProblem(n, NoCategory)]; }
    assert errs == e1;
    if p.modelSuggestionId == "" { errs := errs + [ProductProblem(n, NoModel)]; }
    assert errs == e1 + e2;
    if p.customizationTypeId == "" { errs := errs + [ProductProblem(n, NoCustomization)]; }
    assert errs == e1 + e2 + e3;
    if p.description == "" { errs := errs + [ProductProblem(n, NoDescription)]; }
    assert errs == e1 + e2 + e3 + e4;
    if p.qty <= 0 { errs := errs + [ProductProblem(n, QtyNotPositive)]; }
    RowErrorsEmpty(p, n);
  }

  /**
   * The validation of `handleConvertLead`: the header messages, then each row's messages
   * pushed in row order with rows numbered from 1.
   */
  method Validate(h: Header, ps: seq<ProductRow>) returns (errs: seq<Message>)
    ensures errs == HeaderErrors(h) + AllRowErrors(ps, 1)
    ensures errs == [] <==> HeaderOk(h) && forall i :: 0 <= i < |ps| ==> RowOk(ps[i])
    ensures |errs| <= 4 + 5 * |ps|
  {
    errs := CheckHeader(h);
    HeaderErrorsEmpty(h);
    assert ps[..0] == [];
    var i := 0;
    while i < |ps|
      invariant 0 <= i <= |ps|
      invariant errs == HeaderErrors(h) + AllRowErrors(ps[..i], 1)
    {
      var rowErrs := CheckRow(ps[i], i + 1);
      ValidateStep(HeaderErrors(h), ps, i, errs, errs + rowErrs);
      errs := errs + rowErrs;
      i := i + 1;
    }
    assert ps[..i] == ps;
    AllRowErrorsEmpty(ps, 1);
    AllRowErrorsLength(ps, 1);
  }

  /** `personalization` of one payload item. */
  datatype PersonalizationPayload = PersonalizationPayload(
    isPersonalized: bool, location: Option<string>, name: Option<string>, description: string)

  /** One element of `items` in the payload. */
  datatype PayloadItem = PayloadItem(
    inquiryCategory: string, modelSuggestion: string, qty: int, rate: real, gst: real, total: real,
    customizationType: string, personalization: PersonalizationPayload)

  /** The lead sent by `handleConvertLead`. */
  datatype LeadPayload = LeadPayload(
    leadDate: string, clientType: string, deliveryDate: string, shippingCharges: string,
    budgetFrom: string, budgetTo: string, accountMaster: string, items: seq<PayloadItem>, totalAmount: real)

  /** `products.map(...)`: item `i` is row `i`; the location only for personalised rows, the name only for the others. */
  function PayloadItems(ps: seq<ProductRow>): (items: seq<PayloadItem>)
    ensures |items| == |ps|
    ensures forall i :: 0 <= i < |ps| ==>
      && items[i].inquiryCategory == ps[i].inquiryCategoryId
      && items[i].modelSuggestion == ps[i].modelSuggestionId
      && items[i].customizationType == ps[i].customizationTypeId
      && items[i].qty == ps[i].qty && items[i].rate == ps[i].rate
      && items[i].gst == ps[i].gst && items[i].total == ps[i].total
      && items[i].personalization.description == ps[i].description
      && (items[i].personalization.isPersonalized <==> ps[i].personalization == Yes)
      && (ps[i].personalization == Yes ==> items[i].personalization.location == ps[i].location && items[i].personalization.name == None)
      && (ps[i].personalization == No ==> items[i].personalization.name == ps[i].name && items[i].personalization.location == None)
  {
    seq(|ps|, i requires 0 <= i < |ps| =>
      var p := ps[i];
      PayloadItem(p.inquiryCategoryId, p.modelSuggestionId, p.qty, p.rate, p.gst, p.total, p.customizationTypeId,
        PersonalizationPayload(
          p.personalization == Yes,
          if p.personalization == Yes then p.location else None,
          if p.personalization == No then p.name else None,
          p.description)))
  }

  /** The state of the page: the rows, the messages shown, and the models fetched so far. */
  class LeadForm {
    var products: seq<ProductRow>
    var errors: seq<Message>
    var modelCache: ModelCache

    /** There is always a row, and row ids are unique. */
    ghost predicate Valid()
      reads this
    {
      |products| >= 1 && UniqueIds(products)
    }

    constructor (id: string)
      ensures Valid()
      ensures products == [DefaultRow(id)] && errors == [] && modelCache == map[]
    {
      products := [DefaultRow(id)];
      errors := [];
      modelCache := map[];
    }

    /** The mount effect: every row's total is recomputed from its quantity, rate and GST. */
    method RecomputeTotals()
      requires Valid()
      modifies this`products
      ensures Valid()
      ensures |products| == |old(products)|
      ensures forall i :: 0 <= i < |products| ==>
        products[i] == old(products)[i].(total := products[i].total) && TotalIsCurrent(products[i])
    {
      var ps := products;
      products := seq(|ps|, i requires 0 <= i < |ps| => ps[i].(total := RowTotal(ps[i].qty, ps[i].rate, ps[i].gst)));
    }

    /** `updateProduct(id, field, value)`. */
    method UpdateProduct(id: string, e: Edit)
      requires Valid()
      modifies this`products
      ensures Valid()
      ensures products == UpdateProducts(old(products), id, e, modelCache)
    {
      products := UpdateProducts(products, id, e, modelCache);
    }

    /**
     * `fetchModelsByCategory`: a category already cached is not fetched again; a successful
     * reply stores its models (an absent list as empty); a failure stores nothing.
     */
    method CacheModels(categoryId: string, reply: Response<Option<seq<ModelSuggestion>>>)
      modifies this`modelCache
      ensures categoryId in old(modelCache) || reply.Failed? ==> modelCache == old(modelCache)
      ensures categoryId !in old(modelCache) && reply.Ok? ==>
        modelCache == old(modelCache)[categoryId := reply.body.GetOr([])]
    {
      if categoryId in modelCache {
        return;
      }
      if reply.Ok? {
        modelCache := modelCache[categoryId := reply.body.GetOr([])];
      }
    }

    /** `addProduct`: a default row with a fresh id goes at the end. */
    method AddProduct(id: string)
      requires Valid()
      requires forall i :: 0 <= i < |products| ==> products[i].id != id
      modifies this`products
      ensures Valid()
      ensures products == old(products) + [DefaultRow(id)]
    {
      products := products + [DefaultRow(id)];
    }

    /** `removeProduct`: with more than one row, the row with that id goes; the last row is never removed. */
    method RemoveProduct(id: string)
      requires Valid()
      modifies this`products
      ensures Valid()
      ensures |old(products)| == 1 ==> products == old(products)
      ensures |old(products)| > 1 ==> products == Filter(old(products), IdIsNot(id))
      ensures |old(products)| > 1 ==> forall k :: 0 <= k < |old(products)| && old(products)[k].id == id ==>
        products == old(products)[..k] + old(products)[k + 1..]
      ensures (forall k :: 0 <= k < |old(products)| ==> old(products)[k].id != id) ==> products == old(products)
    {
      if |products| > 1 {
        ghost var before := products;
        products := Filter(products, IdIsNot(id));
        RemovedById(before, id);
      }
    }

    /**
     * `handleConvertLead`: with messages, they are shown and nothing is sent; without,
     * the messages are cleared and the lead is sent. The reply only decides the toast and
     * the navigation to the lead list, which `navigated` reports.
     */
    method HandleConvertLead(h: Header, shipping: Option<real>, reply: Ack) returns (sent: Option<LeadPayload>, navigated: bool)
      requires Valid()
      modifies this`errors
      ensures Valid() && products == old(products)
      ensures errors == HeaderErrors(h) + AllRowErrors(products, 1)
      ensures sent.None? <==> !(HeaderOk(h) && forall i :: 0 <= i < |products| ==> RowOk(products[i]))
      ensures sent.Some? ==> sent.value == LeadPayload(h.leadDate, h.clientType, h.deliveryDate, h.shippingCharges,
        h.budgetFrom, h.budgetTo, h.accountId.value, PayloadItems(products), GrandTotal(products, shipping))
      ensures navigated <==> sent.Some? && reply.Ok?
    {
      var validationErrors := Validate(h, products);
      if |validationErrors| > 0 {
        errors := validationErrors;
        return None, false;
      }
      errors := [];
      var items := PayloadItems(products);
      var totalAmount := GrandTotal(products, shipping);
      sent := Some(LeadPayload(h.leadDate, h.clientType, h.deliveryDate, h.shippingCharges,
        h.budgetFrom, h.budgetTo, h.accountId.value, items, totalAmount));
      navigated := reply.Ok?;
    }
  }
}
