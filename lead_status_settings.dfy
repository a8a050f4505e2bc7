/**
 * The lead-status settings page: a local list of statuses kept in ascending `order`.
 * Submitting the form prepends a row built from it and sorts the list by `order`.
 */
module LeadStatusSettings {

  /** A status row; the form has the same three fields. */
  datatype StatusRow = StatusRow(name: string, color: string, order: int)

  /** `initialData`. */
  const InitialData: seq<StatusRow> := [
    StatusRow("New", "#0ea5e9", 1),
    StatusRow("Contacted", "#f59e0b", 2),
    StatusRow("Qualified", "#6366f1", 3),
    StatusRow("Proposal", "#8b5cf6", 4),
    StatusRow("Won", "#10b981", 5),
    StatusRow("Lost", "#ef4444", 6)]

  /** The form of `resetForm` and of a fresh page. */
  const DefaultForm := StatusRow("", "#000000", 1)

  ghost predicate SortedByOrder(xs: seq<StatusRow>) {
    forall i, j :: 0 <= i < j < |xs| ==> xs[i].order <= xs[j].order
  }

  /** The initial rows are in ascending order, numbered 1 to 6. */
  lemma InitialDataSorted()
    ensures SortedByOrder(InitialData)
    ensures forall i :: 0 <= i < |InitialData| ==> InitialData[i].order == i + 1
  {
  }

  /**
   * `x` inserted into `xs` just before the first row whose order is not below its own,
   * so that it comes before the rows of equal order.
   */
  function Insert(x: StatusRow, xs: seq<StatusRow>): (r: seq<StatusRow>)
    ensures |r| == |xs| + 1
  {
    if xs == [] || x.order <= xs[0].order then [x] + xs else [xs[0]] + Insert(x, xs[1..])
  }

  /** Inserting adds exactly the new row: the result is a permutation of the list and the row. */
  lemma {:induction false} InsertPermutes(x: StatusRow, xs: seq<StatusRow>)
    ensures multiset(Insert(x, xs)) == multiset(xs) + multiset{x}
  {
    if xs != [] && x.order > xs[0].order {
      InsertPermutes(x, xs[1..]);
      assert xs == [xs[0]] + xs[1..];
    }
  }

  /** Inserting a row of order at least `b` into rows of order at least `b` gives rows of order at least `b`. */
  lemma {:induction false} InsertBound(x: StatusRow, xs: seq<StatusRow>, b: int)
    requires b <= x.order && forall i :: 0 <= i < |xs| ==> b <= xs[i].order
    ensures forall i :: 0 <= i < |Insert(x, xs)| ==> b <= Insert(x, xs)[i].order
  {
    if xs != [] && x.order > xs[0].order {
      InsertBound(x, xs[1..], b);
      var rest := Insert(x, xs[1..]);
      forall i | 1 <= i < |Insert(x, xs)|
        ensures b <= Insert(x, xs)[i].order
      {
        assert Insert(x, xs)[i] == rest[i - 1];
      }
    }
  }

  /** Inserting into a sorted list keeps it sorted. */
  lemma {:induction false} InsertSorted(x: StatusRow, xs: seq<StatusRow>)
    requires SortedByOrder(xs)
    ensures SortedByOrder(Insert(x, xs))
  {
    if xs != [] && x.order > xs[0].order {
      var rest := Insert(x, xs[1..]);
      assert SortedByOrder(xs[1..]);
      InsertSorted(x, xs[1..]);
      InsertBound(x, xs[1..], xs[0].order);
      var r := [xs[0]] + rest;
      forall i, j | 0 <= i < j < |r|
        ensures r[i].order <= r[j].order
      {
        assert r[j] == rest[j - 1];
        if i > 0 {
          assert r[i] == rest[i - 1];
        }
      }
    }
  }

  /**
   * `xs.sort((a, b) => a.order - b.order)`: JavaScript's sort is stable, and the stable sort by
   * a key is unique, so insertion sort (each earlier row inserted before its equals) is it.
   */
  function SortByOrder(xs: seq<StatusRow>): (r: seq<StatusRow>)
    ensures SortedByOrder(r)
    ensures multiset(r) == multiset(xs)
  {
    if xs == [] then []
    else
      assert xs == [xs[0]] + xs[1..];
      InsertSorted(xs[0], SortByOrder(xs[1..]));
      InsertPermutes(xs[0], SortByOrder(xs[1..]));
      Insert(xs[0], SortByOrder(xs[1..]))
  }

  /** Sorting a list that is already in order changes nothing. */
  lemma {:induction false} SortSortedIdentity(xs: seq<StatusRow>)
    requires SortedByOrder(xs)
    ensures SortByOrder(xs) == xs
  {
    if xs != [] {
      assert SortedByOrder(xs[1..]);
      SortSortedIdentity(xs[1..]);
    }
  }

  /** The number of leading rows of a sorted list whose order is below `order`. */
  function CountBelow(order: int, xs: seq<StatusRow>): (k: nat)
    ensures k <= |xs|
  {
    if xs == [] || order <= xs[0].order then 0 else 1 + CountBelow(order, xs[1..])
  }

  /** The new row goes in at position `CountBelow`, the rest of the list unchanged around it. */
  lemma {:induction false} InsertAt(x: StatusRow, xs: seq<StatusRow>)
    ensures var k := CountBelow(x.order, xs); Insert(x, xs) == xs[..k] + [x] + xs[k..]
  {
    if xs != [] && x.order > xs[0].order {
      InsertAt(x, xs[1..]);
      var k := CountBelow(x.order, xs);
      assert xs[..k] == [xs[0]] + xs[1..][..k - 1];
      assert xs[k..] == xs[1..][k - 1..];
    }
  }

  /** In a sorted list the rows before position `CountBelow` are below `order`, the others not. */
  lemma {:induction false} CountBelowSplits(order: int, xs: seq<StatusRow>)
    requires SortedByOrder(xs)
    ensures var k := CountBelow(order, xs);
      (forall i :: 0 <= i < k ==> xs[i].order < order) && (forall i :: k <= i < |xs| ==> order <= xs[i].order)
  {
    if xs != [] && order > xs[0].order {
      assert SortedByOrder(xs[1..]);
      CountBelowSplits(order, xs[1..]);
      forall i | 1 <= i < |xs|
        ensures xs[i] == xs[1..][i - 1]
      {
      }
    }
  }

  /**
   * Into a sorted list the new row goes after every row of smaller order and before every
   * other row, in particular before the rows of equal order.
   */
  lemma InsertPosition(x: StatusRow, xs: seq<StatusRow>)
    requires SortedByOrder(xs)
    ensures var k := CountBelow(x.order, xs);
      Insert(x, xs) == xs[..k] + [x] + xs[k..]
      && (forall i :: 0 <= i < k ==> xs[i].order < x.order)
      && (forall i :: k <= i < |xs| ==> x.order <= xs[i].order)
  {
    InsertAt(x, xs);
    CountBelowSplits(x.order, xs);
  }

  /** On a sorted list, prepending and sorting is inserting the new row before its equals. */
  lemma SubmitInserts(x: StatusRow, prev: seq<StatusRow>)
    requires SortedByOrder(prev)
    ensures SortByOrder([x] + prev) == Insert(x, prev)
  {
    assert ([x] + prev)[1..] == prev;
    SortSortedIdentity(prev);
  }

  /** The lead-status page's state. */
  class LeadStatusPage {
    var statuses: seq<StatusRow>
    var form: StatusRow
    var open: bool

    ghost predicate Valid()
      reads this
    {
      SortedByOrder(statuses)
    }

    constructor ()
      ensures statuses == InitialData && form == DefaultForm && !open
      ensures Valid()
    {
      statuses := InitialData;
      form := DefaultForm;
      open := false;
      InitialDataSorted();
    }

    /** `resetForm`. */
    method ResetForm()
      modifies this`form
      ensures form == DefaultForm
    {
      form := DefaultForm;
    }

    /**
     * `handleSubmit`: the form's row prepended and the list sorted by order; the dialog
     * closes and the form resets. The list gains exactly that row and stays in order.
     */
    method HandleSubmit()
      modifies this
      ensures statuses == SortByOrder([old(form)] + old(statuses))
      ensures Valid()
      ensures multiset(statuses) == multiset(old(statuses)) + multiset{old(form)}
      ensures old(Valid()) ==> statuses == Insert(old(form), old(statuses))
      ensures form == DefaultForm && !open
    {
      var row := StatusRow(form.name, form.color, form.order);
      if Valid() {
        SubmitInserts(row, statuses);
      }
      statuses := SortByOrder([row] + statuses);
      open := false;
      ResetForm();
    }
  }
}
