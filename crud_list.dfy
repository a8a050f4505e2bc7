/**
 * The list maintenance every settings page repeats: delete the record with an id,
 * replace the record with an id by the server's copy, and the pagination fallbacks
 * of a list reply. Records are addressed through `idOf`, their optional `_id`.
 */
module CrudList {
  import opened Wrappers
  import opened Lists

  /** The edit state of a page form: `{ isEdit, id }`. */
  datatype EditMode = EditMode(isEdit: bool, id: Option<string>)

  const NotEditing := EditMode(false, None)

  /** The `pagination` object of a list reply; either count may be missing. */
  datatype Pagination = Pagination(totalPages: Option<int>, totalRecords: Option<int>)

  /** `x._id !== id`, the test of the delete filter. */
  function HasNotId<T>(idOf: T -> Option<string>, id: string): T -> bool {
    (x: T) => idOf(x) != Some(id)
  }

  /** `xs.filter(x => x._id !== id)`. */
  function RemoveById<T(==,!new)>(xs: seq<T>, idOf: T -> Option<string>, id: string): (r: seq<T>)
    ensures forall x :: x in r <==> x in xs && idOf(x) != Some(id)
    ensures IsSubseq(r, xs)
  {
    Filter(xs, HasNotId(idOf, id))
  }

  /** Deleting an id nobody has leaves the list as it was. */
  lemma RemoveByIdAbsent<T(!new)>(xs: seq<T>, idOf: T -> Option<string>, id: string)
    requires forall i :: 0 <= i < |xs| ==> idOf(xs[i]) != Some(id)
    ensures RemoveById(xs, idOf, id) == xs
  {
    FilterKeepsAll(xs, HasNotId(idOf, id));
  }

  /** Deleting the id of exactly one record removes that record and nothing else. */
  lemma RemoveByIdUnique<T(!new)>(xs: seq<T>, idOf: T -> Option<string>, id: string, k: nat)
    requires k < |xs| && idOf(xs[k]) == Some(id)
    requires forall i :: 0 <= i < |xs| && i != k ==> idOf(xs[i]) != Some(id)
    ensures RemoveById(xs, idOf, id) == xs[..k] + xs[k + 1..]
  {
    FilterDropsOne(xs, HasNotId(idOf, id), k);
  }

  /** A second delete of the same id changes nothing. */
  lemma RemoveByIdIdempotent<T(!new)>(xs: seq<T>, idOf: T -> Option<string>, id: string)
    ensures RemoveById(RemoveById(xs, idOf, id), idOf, id) == RemoveById(xs, idOf, id)
  {
    var r := RemoveById(xs, idOf, id);
    assert forall i :: 0 <= i < |r| ==> r[i] in r;
    RemoveByIdAbsent(r, idOf, id);
  }

  /** `xs.map(x => x._id === id ? rec : x)`. */
  function ReplaceById<T>(xs: seq<T>, idOf: T -> Option<string>, id: string, rec: T): (r: seq<T>)
    ensures |r| == |xs|
    ensures forall i :: 0 <= i < |xs| && idOf(xs[i]) != Some(id) ==> r[i] == xs[i]
    ensures forall i :: 0 <= i < |xs| && idOf(xs[i]) == Some(id) ==> r[i] == rec
  {
    seq(|xs|, i requires 0 <= i < |xs| => if idOf(xs[i]) == Some(id) then rec else xs[i])
  }

  /** Replacing an id nobody has leaves the list as it was. */
  lemma ReplaceByIdAbsent<T>(xs: seq<T>, idOf: T -> Option<string>, id: string, rec: T)
    requires forall i :: 0 <= i < |xs| ==> idOf(xs[i]) != Some(id)
    ensures ReplaceById(xs, idOf, id, rec) == xs
  {
  }

  /** Replacing by a record that keeps the id, then replacing again, is the second replacement. */
  lemma ReplaceByIdTwice<T>(xs: seq<T>, idOf: T -> Option<string>, id: string, rec1: T, rec2: T)
    requires idOf(rec1) == Some(id)
    ensures ReplaceById(ReplaceById(xs, idOf, id, rec1), idOf, id, rec2) == ReplaceById(xs, idOf, id, rec2)
  {
  }

  /**
   * An update touches the edited record only: once the record with the id is taken away,
   * the list before and after the replacement is the same (provided the server's copy
   * keeps the id).
   */
  lemma {:induction false} ReplaceThenRemove<T(!new)>(xs: seq<T>, idOf: T -> Option<string>, id: string, rec: T)
    requires idOf(rec) == Some(id)
    ensures RemoveById(ReplaceById(xs, idOf, id, rec), idOf, id) == RemoveById(xs, idOf, id)
  {
    if xs != [] {
      var r := ReplaceById(xs, idOf, id, rec);
      assert r[1..] == ReplaceById(xs[1..], idOf, id, rec);
      ReplaceThenRemove(xs[1..], idOf, id, rec);
    }
  }

  /**
   * A create prepends the server's copy; deleting that copy's id afterwards gives the old list
   * without the id, which is the old list itself when the id was new.
   */
  lemma PrependThenRemove<T(!new)>(xs: seq<T>, idOf: T -> Option<string>, id: string, rec: T)
    requires idOf(rec) == Some(id)
    ensures RemoveById([rec] + xs, idOf, id) == RemoveById(xs, idOf, id)
    ensures (forall i :: 0 <= i < |xs| ==> idOf(xs[i]) != Some(id)) ==> RemoveById([rec] + xs, idOf, id) == xs
  {
    FilterAppend([rec], xs, HasNotId(idOf, id));
    if forall i :: 0 <= i < |xs| ==> idOf(xs[i]) != Some(id) {
      RemoveByIdAbsent(xs, idOf, id);
    }
  }

  /** The request a save sends: none, a PUT of a body to an id, or a POST of a body. */
  datatype Request<+B> = NoRequest | Put(id: string, body: B) | Post(body: B)

  /** A list reply: one page of records and the optional pagination counts. */
  datatype ListReply<+T> = ListReply(data: seq<T>, pagination: Option<Pagination>)

  /** `pagination?.totalPages || 1`: a missing or zero count reads as one page. */
  function TotalPagesOr1(p: Option<Pagination>): (r: int)
    ensures r != 0
    ensures p.Some? && p.value.totalPages.Some? && p.value.totalPages.value != 0 ==> r == p.value.totalPages.value
    ensures p.None? || p.value.totalPages.None? || p.value.totalPages.value == 0 ==> r == 1
  {
    if p.Some? && p.value.totalPages.Some? && p.value.totalPages.value != 0 then p.value.totalPages.value else 1
  }

  /** `pagination?.totalRecords || 0`: a missing count reads as zero records. */
  function TotalRecordsOr0(p: Option<Pagination>): (r: int)
    ensures p.None? || p.value.totalRecords.None? ==> r == 0
    ensures p.Some? && p.value.totalRecords.Some? ==> r == p.value.totalRecords.value
  {
    if p.Some? && p.value.totalRecords.Some? then p.value.totalRecords.value else 0
  }
}
