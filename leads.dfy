/**
 * The leads page: its own status vocabulary and colours, the status change of one lead,
 * the kanban columns (one per status, each the leads with that status) and the per-column
 * page numbers set when the kanban view is loaded.
 */
module Leads {
  import opened Wrappers
  import opened Lists
  import LeadStatusConstants

  /** A lead as the page lists it (the account and item details are not used by the page's logic). */
  datatype Lead = Lead(
    id: string, leadDate: string, clientType: string, deliveryDate: string,
    leadStatus: string, totalAmount: string)

  datatype View = TableView | KanbanView

  /** The PUT of a status change: the lead's id and the body's `leadStatus`. */
  datatype StatusPut = StatusPut(leadId: string, leadStatus: string)

  /** The page's `STATUSES`, one kanban column each, in column order. */
  const STATUSES: seq<string> := [
    "New Lead", "Quotation Given", "Follow Remark", "Order Confirmation", "PI",
    "Order Execution", "Dispatch", "Final Payment", "Completed", "Lost"]

  /** The page's `STATUS_COLORS`. */
  const STATUS_COLORS: map<string, string> := map[
    "New Lead" := "bg-blue-100 text-blue-700",
    "Quotation Given" := "bg-purple-100 text-purple-700",
    "Follow Remark" := "bg-yellow-100 text-yellow-700",
    "Order Confirmation" := "bg-green-100 text-green-700",
    "PI" := "bg-indigo-100 text-indigo-700",
    "Order Execution" := "bg-orange-100 text-orange-700",
    "Dispatch" := "bg-cyan-100 text-cyan-700",
    "Final Payment" := "bg-pink-100 text-pink-700",
    "Completed" := "bg-emerald-100 text-emerald-700",
    "Lost" := "bg-red-100 text-red-700"]

  /** Ten distinct statuses, "Follow Remark" third and "Lost" last. */
  lemma StatusesOrder()
    ensures |STATUSES| == 10 && Distinct(STATUSES)
    ensures STATUSES[0] == "New Lead" && STATUSES[2] == "Follow Remark" && STATUSES[9] == "Lost"
  {
  }

  /** Every status of the page has a colour. */
  lemma StatusColorsTotal()
    ensures forall s :: s in STATUS_COLORS <==> s in STATUSES
  {
  }

  /**
   * The page's vocabulary is the shared one except in third place, where the page says
   * "Follow Remark" and the shared list says "Follow Up"; neither word is in the other list.
   */
  lemma VocabulariesDiffer()
    ensures |STATUSES| == |LeadStatusConstants.LEAD_STATUSES|
    ensures forall i :: 0 <= i < |STATUSES| && i != 2 ==> STATUSES[i] == LeadStatusConstants.LEAD_STATUSES[i]
    ensures "Follow Remark" in STATUSES && "Follow Remark" !in LeadStatusConstants.LEAD_STATUSES
    ensures "Follow Up" !in STATUSES && "Follow Up" in LeadStatusConstants.LEAD_STATUSES
  {
  }

  /** The local update after a successful PUT: `leadStatus` replaced on the leads with the id. */
  function SetStatus(leads: seq<Lead>, id: string, status: string): (r: seq<Lead>)
    ensures |r| == |leads|
    ensures forall i :: 0 <= i < |leads| && leads[i].id != id ==> r[i] == leads[i]
    ensures forall i :: 0 <= i < |leads| && leads[i].id == id ==> r[i] == leads[i].(leadStatus := status)
  {
    seq(|leads|, i requires 0 <= i < |leads| =>
      if leads[i].id == id then leads[i].(leadStatus := status) else leads[i])
  }

  /** Changing a lead back to the status it had undoes the change. */
  lemma SetStatusUndo(leads: seq<Lead>, id: string, status: string, previous: string)
    requires forall i :: 0 <= i < |leads| && leads[i].id == id ==> leads[i].leadStatus == previous
    ensures SetStatus(SetStatus(leads, id, status), id, previous) == leads
  {
  }

  function HasStatus(status: string): Lead -> bool {
    (l: Lead) => l.leadStatus == status
  }

  /** `getLeadsByStatus`: the leads with the status, in list order. */
  function ByStatus(leads: seq<Lead>, status: string): (r: seq<Lead>)
    ensures forall l :: l in r <==> l in leads && l.leadStatus == status
    ensures IsSubseq(r, leads)
  {
    Filter(leads, HasStatus(status))
  }

  /**
   * Any status is a valid target from any card: after the change the lead sits in the
   * column of the new status and in no other column.
   */
  lemma MovedLeadColumn(leads: seq<Lead>, k: nat, status: string)
    requires k < |leads|
    ensures var r := SetStatus(leads, leads[k].id, status);
      r[k] in ByStatus(r, status) && forall other :: other != status ==> r[k] !in ByStatus(r, other)
  {
  }

  /** A lead whose status is one of the columns' lands in exactly one column. */
  lemma ExactlyOneColumn(leads: seq<Lead>, l: Lead)
    requires l in leads && l.leadStatus in STATUSES
    ensures exists j :: 0 <= j < |STATUSES| && l in ByStatus(leads, STATUSES[j])
    ensures forall j, j' :: (0 <= j < |STATUSES| && 0 <= j' < |STATUSES|
      && l in ByStatus(leads, STATUSES[j]) && l in ByStatus(leads, STATUSES[j'])) ==> j == j'
  {
    StatusesOrder();
    var j :| 0 <= j < |STATUSES| && STATUSES[j] == l.leadStatus;
    assert l in ByStatus(leads, STATUSES[j]);
  }

  /** The sum of the count badges of the columns for `statuses`. */
  function KanbanTotal(leads: seq<Lead>, statuses: seq<string>): nat {
    if statuses == [] then 0 else |ByStatus(leads, statuses[0])| + KanbanTotal(leads, statuses[1..])
  }

  /** How many times `s` occurs in `statuses`. */
  function Occurrences(statuses: seq<string>, s: string): nat {
    if statuses == [] then 0 else (if statuses[0] == s then 1 else 0) + Occurrences(statuses[1..], s)
  }

  lemma {:induction false} OccurrencesDistinct(statuses: seq<string>, s: string)
    requires Distinct(statuses)
    ensures Occurrences(statuses, s) == if s in statuses then 1 else 0
  {
    if statuses != [] {
      assert Distinct(statuses[1..]);
      OccurrencesDistinct(statuses[1..], s);
      if statuses[0] == s {
        assert s !in statuses[1..];
      }
    }
  }

  lemma {:induction false} KanbanTotalNil(statuses: seq<string>)
    ensures KanbanTotal([], statuses) == 0
  {
    if statuses != [] {
      KanbanTotalNil(statuses[1..]);
    }
  }

  /** One more lead adds one to every column of its status. */
  lemma {:induction false} KanbanTotalCons(l: Lead, rest: seq<Lead>, statuses: seq<string>)
    ensures KanbanTotal([l] + rest, statuses) == KanbanTotal(rest, statuses) + Occurrences(statuses, l.leadStatus)
  {
    if statuses != [] {
      assert ([l] + rest)[1..] == rest;
      KanbanTotalCons(l, rest, statuses[1..]);
    }
  }

  function InStatuses(statuses: seq<string>): Lead -> bool {
    (l: Lead) => l.leadStatus in statuses
  }

  /**
   * The columns partition the leads with a known status: the badges of distinct statuses
   * add up to the number of leads whose status is among them.
   */
  lemma {:induction false} KanbanPartition(leads: seq<Lead>, statuses: seq<string>)
    requires Distinct(statuses)
    ensures KanbanTotal(leads, statuses) == |Filter(leads, InStatuses(statuses))|
  {
    if leads == [] {
      KanbanTotalNil(statuses);
    } else {
      assert leads == [leads[0]] + leads[1..];
      KanbanTotalCons(leads[0], leads[1..], statuses);
      OccurrencesDistinct(statuses, leads[0].leadStatus);
      KanbanPartition(leads[1..], statuses);
    }
  }

  /** When every lead has one of the distinct `statuses`, their badges add up to the number of leads. */
  lemma KanbanCovers(leads: seq<Lead>, statuses: seq<string>)
    requires Distinct(statuses)
    requires forall i :: 0 <= i < |leads| ==> leads[i].leadStatus in statuses
    ensures KanbanTotal(leads, statuses) == |leads|
  {
    KanbanPartition(leads, statuses);
    FilterKeepsAll(leads, InStatuses(statuses));
  }

  /** The `forEach` of `fetchKanbanLeads`: page 1 for every status. */
  method InitialKanbanPages() returns (pages: map<string, int>)
    ensures forall s :: s in pages <==> s in STATUSES
    ensures forall s :: s in pages ==> pages[s] == 1
  {
    pages := map[];
    var i := 0;
    while i < |STATUSES|
      invariant 0 <= i <= |STATUSES|
      invariant forall s :: s in pages <==> s in STATUSES[..i]
      invariant forall s :: s in pages ==> pages[s] == 1
    {
      pages := pages[STATUSES[i] := 1];
      assert STATUSES[..i + 1] == STATUSES[..i] + [STATUSES[i]];
      i := i + 1;
    }
    assert STATUSES[..i] == STATUSES;
  }

  /** The leads page's state. */
  class LeadsPage {
    var view: View
    var leads: seq<Lead>
    var kanbanPages: map<string, int>
    var selectedLead: Option<Lead>
    var viewDialogOpen: bool

    constructor ()
      ensures view == TableView && leads == [] && kanbanPages == map[]
      ensures selectedLead == None && !viewDialogOpen
    {
      view := TableView;
      leads := [];
      kanbanPages := map[];
      selectedLead := None;
      viewDialogOpen := false;
    }

    /** `handleViewLead`: the details dialog opens on the lead. */
    method HandleViewLead(lead: Lead)
      modifies this`selectedLead, this`viewDialogOpen
      ensures selectedLead == Some(lead) && viewDialogOpen
    {
      selectedLead := Some(lead);
      viewDialogOpen := true;
    }

    /** Closing the details dialog keeps the selected lead. */
    method CloseViewDialog()
      modifies this`viewDialogOpen
      ensures !viewDialogOpen
    {
      viewDialogOpen := false;
    }

    /** `fetchLeads`: the reply's list, or `[]` when it has none; a failure changes nothing. */
    method FetchLeads(reply: Response<Option<seq<Lead>>>)
      modifies this`leads
      ensures reply.Ok? ==> leads == reply.body.GetOr([])
      ensures reply.Failed? ==> leads == old(leads)
    {
      if reply.Ok? {
        leads := reply.body.GetOr([]);
      }
    }

    /** `fetchKanbanLeads`: the list as `fetchLeads` sets it, and every column back on page 1. */
    method FetchKanbanLeads(reply: Response<Option<seq<Lead>>>)
      modifies this`leads, this`kanbanPages
      ensures reply.Ok? ==>
        (leads == reply.body.GetOr([])
         && (forall s :: s in kanbanPages <==> s in STATUSES)
         && (forall s :: s in kanbanPages ==> kanbanPages[s] == 1))
      ensures reply.Failed? ==> leads == old(leads) && kanbanPages == old(kanbanPages)
    {
      if reply.Ok? {
        leads := reply.body.GetOr([]);
        kanbanPages := InitialKanbanPages();
      }
    }

    /**
     * Setting the view: the effect keyed on the view runs only when it changes, and then reloads
     * the list the way the new view loads it; choosing the current view fetches nothing.
     */
    method SetView(v: View, reply: Response<Option<seq<Lead>>>)
      modifies this`view, this`leads, this`kanbanPages
      ensures view == v
      ensures v == old(view) ==> leads == old(leads) && kanbanPages == old(kanbanPages)
      ensures v != old(view) && reply.Ok? ==> leads == reply.body.GetOr([])
      ensures v == TableView ==> kanbanPages == old(kanbanPages)
      ensures v != old(view) && v == KanbanView && reply.Ok? ==>
        ((forall s :: s in kanbanPages <==> s in STATUSES)
         && (forall s :: s in kanbanPages ==> kanbanPages[s] == 1))
      ensures reply.Failed? ==> leads == old(leads) && kanbanPages == old(kanbanPages)
    {
      if v != view {
        view := v;
        if v == TableView {
          FetchLeads(reply);
        } else {
          FetchKanbanLeads(reply);
        }
      }
    }

    /**
     * `handleStatusChange`: PUT the new status, then on success set it on the lead with the id.
     * There is no transition rule: every target status is sent.
     */
    method HandleStatusChange(leadId: string, newStatus: string, reply: Ack) returns (put: StatusPut)
      modifies this`leads
      ensures put == StatusPut(leadId, newStatus)
      ensures reply.Ok? ==> leads == SetStatus(old(leads), leadId, newStatus)
      ensures reply.Failed? ==> leads == old(leads)
    {
      put := StatusPut(leadId, newStatus);
      if reply.Ok? {
        leads := SetStatus(leads, leadId, newStatus);
      }
    }
  }
}
