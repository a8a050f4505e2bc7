/**
 * The order-execution dialog of a lead: the list of ordered items with their done flags,
 * the toggle of one item (marking done asks for confirmation first), and the done and
 * pending counts shown in its header.
 */
module OrderExecution {
  import opened Wrappers
  import opened Lists

  /** One ordered item; the names are those of its category, model and customization type. */
  datatype Item = Item(
    id: string, categoryName: string, modelName: string, customizationName: string,
    qty: string, isDone: bool)

  /** The PATCH the dialog sends to flip the done flag of one item of one lead. */
  datatype TogglePatch = TogglePatch(leadId: string, itemId: string)

  /** `items.find(i => i._id === id)`: the first item with the id. */
  function FindItem(items: seq<Item>, id: string): (r: Option<Item>)
    ensures r.None? <==> forall i :: 0 <= i < |items| ==> items[i].id != id
    ensures r.Some? ==> exists k :: (0 <= k < |items| && items[k] == r.value && r.value.id == id
      && forall j :: 0 <= j < k ==> items[j].id != id)
  {
    if items == [] then None
    else if items[0].id == id then Some(items[0])
    else
      var r := FindItem(items[1..], id);
      assert forall j :: 1 <= j < |items| ==> items[j] == items[1..][j - 1];
      r
  }

  /** The flag flip of a successful toggle: `isDone` negated on the items with the id. */
  function ToggleItem(items: seq<Item>, id: string): (r: seq<Item>)
    ensures |r| == |items|
    ensures forall i :: 0 <= i < |items| && items[i].id != id ==> r[i] == items[i]
    ensures forall i :: 0 <= i < |items| && items[i].id == id ==>
      r[i] == items[i].(isDone := !items[i].isDone)
  {
    seq(|items|, i requires 0 <= i < |items| =>
      if items[i].id == id then items[i].(isDone := !items[i].isDone) else items[i])
  }

  /** Toggling the same item twice gives back the original list. */
  lemma ToggleTwice(items: seq<Item>, id: string)
    ensures ToggleItem(ToggleItem(items, id), id) == items
  {
  }

  function IsDone(i: Item): bool { i.isDone }

  function IsPending(i: Item): bool { !i.isDone }

  /** `items.filter(i => i.isDone).length`. */
  function DoneCount(items: seq<Item>): (r: nat)
    ensures r <= |items|
  {
    |Filter(items, IsDone)|
  }

  /** `items.length - doneCount`. */
  function PendingCount(items: seq<Item>): (r: nat)
    ensures r + DoneCount(items) == |items|
  {
    |items| - DoneCount(items)
  }

  /** The pending count is the number of items that are not done. */
  lemma PendingCountsNotDone(items: seq<Item>)
    ensures PendingCount(items) == |Filter(items, IsPending)|
  {
    FilterComplement(items, IsDone, IsPending);
  }

  /** Toggling the only item with an id moves it between done and pending: the done count changes by one. */
  lemma ToggleChangesDoneCount(items: seq<Item>, id: string, k: nat)
    requires k < |items| && items[k].id == id
    requires forall i :: 0 <= i < |items| && i != k ==> items[i].id != id
    ensures DoneCount(ToggleItem(items, id)) == DoneCount(items) + (if items[k].isDone then -1 else 1)
  {
    var r := ToggleItem(items, id);
    assert items == items[..k] + [items[k]] + items[k + 1..];
    assert r == items[..k] + [r[k]] + items[k + 1..];
    FilterAppend(items[..k] + [items[k]], items[k + 1..], IsDone);
    FilterAppend(items[..k], [items[k]], IsDone);
    FilterAppend(items[..k] + [r[k]], items[k + 1..], IsDone);
    FilterAppend(items[..k], [r[k]], IsDone);
  }

  /** The dialog's state: the item list it shows, the request flag and the confirmation dialog. */
  class Dialog {
    const leadId: string
    var items: seq<Item>
    var loading: bool
    var confirmOpen: bool
    var confirmItemId: Option<string>

    /** Opening the dialog on a lead's items. */
    constructor (leadId: string, initialItems: seq<Item>)
      ensures this.leadId == leadId && items == initialItems
      ensures !loading && !confirmOpen && confirmItemId == None
    {
      this.leadId := leadId;
      items := initialItems;
      loading := false;
      confirmOpen := false;
      confirmItemId := None;
    }

    /**
     * `performToggle`: the PATCH is sent while `loading` is set; on success the item's flag
     * is flipped locally and the parent is told to refresh; `loading` is cleared on both paths.
     */
    method PerformToggle(itemId: string, reply: Ack) returns (patch: TogglePatch, loadingDuringRequest: bool, refreshed: bool)
      modifies this`items, this`loading
      ensures patch == TogglePatch(leadId, itemId) && loadingDuringRequest
      ensures reply.Ok? ==> items == ToggleItem(old(items), itemId) && refreshed
      ensures reply.Failed? ==> items == old(items) && !refreshed
      ensures !loading
    {
      loading := true;
      patch := TogglePatch(leadId, itemId);
      loadingDuringRequest := loading;
      if reply.Ok? {
        items := ToggleItem(items, itemId);
        refreshed := true;
      } else {
        refreshed := false;
      }
      loading := false;
    }

    /**
     * `handleToggle`: an item that is not done yet only opens the confirmation for its id;
     * any other id (a done item, or one not in the list) is toggled straight away.
     */
    method HandleToggle(itemId: string, reply: Ack) returns (patch: Option<TogglePatch>)
      modifies this`items, this`loading, this`confirmOpen, this`confirmItemId
      ensures var found := FindItem(old(items), itemId);
        if found.Some? && !found.value.isDone then
          patch == None && items == old(items) && loading == old(loading)
          && confirmOpen && confirmItemId == Some(itemId)
        else
          patch == Some(TogglePatch(leadId, itemId)) && !loading
          && items == (if reply.Ok? then ToggleItem(old(items), itemId) else old(items))
          && confirmOpen == old(confirmOpen) && confirmItemId == old(confirmItemId)
    {
      var found := FindItem(items, itemId);
      if found.Some? && !found.value.isDone {
        confirmOpen := true;
        confirmItemId := Some(itemId);
        patch := None;
      } else {
        var p, _, _ := PerformToggle(itemId, reply);
        patch := Some(p);
      }
    }

    /** "Yes, Mark as Done": toggles the stored id when there is one, then closes the confirmation. */
    method Confirm(reply: Ack) returns (patch: Option<TogglePatch>)
      modifies this`items, this`loading, this`confirmOpen, this`confirmItemId
      ensures !confirmOpen && confirmItemId == None
      ensures Truthy(old(confirmItemId)) ==>
        (patch == Some(TogglePatch(leadId, old(confirmItemId).value)) && !loading
         && items == (if reply.Ok? then ToggleItem(old(items), old(confirmItemId).value) else old(items)))
      ensures !Truthy(old(confirmItemId)) ==> patch == None && items == old(items) && loading == old(loading)
    {
      if Truthy(confirmItemId) {
        var p, _, _ := PerformToggle(confirmItemId.value, reply);
        patch := Some(p);
      } else {
        patch := None;
      }
      confirmOpen := false;
      confirmItemId := None;
    }

    /** "Cancel" (or the close button): closes the confirmation without toggling anything. */
    method Cancel()
      modifies this`confirmOpen, this`confirmItemId
      ensures !confirmOpen && confirmItemId == None
    {
      confirmOpen := false;
      confirmItemId := None;
    }
  }

  /**
   * Marking the only item with an id as done takes two steps, the toggle and the confirmation;
   * afterwards the item is done and the done count has grown by one. An empty id is falsy, so
   * for it the confirmation sends nothing and the list stays as it was.
   */
  method MarkDoneScenario(leadId: string, items: seq<Item>, k: nat) returns (after: seq<Item>)
    requires k < |items| && !items[k].isDone
    requires forall i :: 0 <= i < |items| && i != k ==> items[i].id != items[k].id
    ensures items[k].id == "" ==> after == items
    ensures items[k].id != "" ==>
      (|after| == |items| && after[k].isDone
       && (forall i :: 0 <= i < |items| && i != k ==> after[i] == items[i])
       && DoneCount(after) == DoneCount(items) + 1)
  {
    var d := new Dialog(leadId, items);
    var id := items[k].id;
    var first := d.HandleToggle(id, Ok(()));
    var second := d.Confirm(Ok(()));
    after := d.items;
    ToggleChangesDoneCount(items, id, k);
  }
}
