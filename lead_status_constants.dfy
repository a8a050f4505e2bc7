/** The shared lead-status vocabulary: the ordered status list and the colour class of each status. */
module LeadStatusConstants {
  import opened Lists

  /** `LEAD_STATUSES`, in pipeline order. */
  const LEAD_STATUSES: seq<string> := [
    "New Lead", "Quotation Given", "Follow Up", "Order Confirmation", "PI",
    "Order Execution", "Dispatch", "Final Payment", "Completed", "Lost"]

  /** `STATUS_COLORS`: the badge classes of each status. */
  const STATUS_COLORS: map<string, string> := map[
    "New Lead" := "bg-blue-100 text-blue-700",
    "Quotation Given" := "bg-purple-100 text-purple-700",
    "Follow Up" := "bg-yellow-100 text-yellow-700",
    "Order Confirmation" := "bg-green-100 text-green-700",
    "PI" := "bg-indigo-100 text-indigo-700",
    "Order Execution" := "bg-orange-100 text-orange-700",
    "Dispatch" := "bg-cyan-100 text-cyan-700",
    "Final Payment" := "bg-pink-100 text-pink-700",
    "Completed" := "bg-emerald-100 text-emerald-700",
    "Lost" := "bg-red-100 text-red-700"]

  /** Ten distinct statuses, "New Lead" first, "Follow Up" third and "Lost" last. */
  lemma LeadStatusesOrder()
    ensures |LEAD_STATUSES| == 10 && Distinct(LEAD_STATUSES)
    ensures LEAD_STATUSES[0] == "New Lead" && LEAD_STATUSES[2] == "Follow Up" && LEAD_STATUSES[9] == "Lost"
  {
  }

  /** Every status has a colour, and nothing else has one. */
  lemma StatusColorsTotal()
    ensures forall s :: s in STATUS_COLORS <==> s in LEAD_STATUSES
  {
  }

  /** Distinct statuses get distinct colour classes. */
  lemma StatusColorsInjective()
    ensures forall a, b :: a in STATUS_COLORS && b in STATUS_COLORS && a != b ==> STATUS_COLORS[a] != STATUS_COLORS[b]
  {
  }
}
