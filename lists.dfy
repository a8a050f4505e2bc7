/** The JavaScript array operations the pages use (`filter`, `slice`), over Dafny sequences. */
module Lists {

  /** `a` can be obtained from `b` by deleting elements: the elements of `a` occur in `b` in the same order. */
  ghost predicate IsSubseq<T(!new)>(a: seq<T>, b: seq<T>)
    decreases |b|
  {
    if a == [] then true
    else if b == [] then false
    else (a[0] == b[0] && IsSubseq(a[1..], b[1..])) || IsSubseq(a, b[1..])
  }

  /** No element occurs twice. */
  ghost predicate Distinct<T(!new)>(xs: seq<T>) {
    forall i, j :: 0 <= i < j < |xs| ==> xs[i] != xs[j]
  }

  /** `xs.filter(keep)`: the elements satisfying `keep`, in their original order. */
  function Filter<T(==,!new)>(xs: seq<T>, keep: T -> bool): (r: seq<T>)
    ensures |r| <= |xs|
    ensures forall x :: x in r <==> x in xs && keep(x)
    ensures IsSubseq(r, xs)
  {
    if xs == [] then []
    else if keep(xs[0]) then [xs[0]] + Filter(xs[1..], keep)
    else Filter(xs[1..], keep)
  }

  /** The pieces `f(xs[0], first)`, `f(xs[1], first + 1)`, … laid end to end: a `forEach` that numbers its items. */
  function NumberedConcat<T, U>(xs: seq<T>, first: nat, f: (T, nat) -> seq<U>): seq<U>
    decreases |xs|
  {
    if xs == [] then [] else f(xs[0], first) + NumberedConcat(xs[1..], first + 1, f)
  }

  /** One more item adds its piece, numbered after the others, at the end. */
  lemma {:induction false} NumberedConcatSnoc<T, U>(xs: seq<T>, x: T, first: nat, f: (T, nat) -> seq<U>)
    ensures NumberedConcat(xs + [x], first, f) == NumberedConcat(xs, first, f) + f(x, first + |xs|)
  {
    if xs == [] {
      assert [x][1..] == [];
    } else {
      assert (xs + [x])[1..] == xs[1..] + [x];
      NumberedConcatSnoc(xs[1..], x, first + 1, f);
      var a, b, c := f(xs[0], first), NumberedConcat(xs[1..], first + 1, f), f(x, first + |xs|);
      assert NumberedConcat(xs + [x], first, f) == a + (b + c);
      assert a + (b + c) == a + b + c;
    }
  }

  /** A prefix one longer is the prefix with the next item added. */
  lemma TakeSnoc<T>(s: seq<T>, i: nat)
    requires i < |s|
    ensures s[..i + 1] == s[..i] + [s[i]]
  {
  }

  /** Filtering distributes over concatenation. */
  lemma {:induction false} FilterAppend<T(!new)>(a: seq<T>, b: seq<T>, keep: T -> bool)
    ensures Filter(a + b, keep) == Filter(a, keep) + Filter(b, keep)
  {
    if a == [] {
      assert a + b == b;
    } else {
      assert (a + b)[0] == a[0];
      assert (a + b)[1..] == a[1..] + b;
      FilterAppend(a[1..], b, keep);
    }
  }

  /** A filter that keeps every element returns the sequence itself. */
  lemma {:induction false} FilterKeepsAll<T(!new)>(xs: seq<T>, keep: T -> bool)
    requires forall x :: x in xs ==> keep(x)
    ensures Filter(xs, keep) == xs
  {
    if xs != [] {
      FilterKeepsAll(xs[1..], keep);
    }
  }

  /** A filter that rejects every element returns the empty sequence. */
  lemma FilterKeepsNone<T(!new)>(xs: seq<T>, keep: T -> bool)
    requires forall x :: x in xs ==> !keep(x)
    ensures Filter(xs, keep) == []
  {
  }

  /** Filtering with two predicates in turn is filtering with their conjunction. */
  lemma {:induction false} FilterFilter<T(!new)>(xs: seq<T>, p: T -> bool, q: T -> bool)
    ensures Filter(Filter(xs, p), q) == Filter(xs, x => p(x) && q(x))
  {
    if xs != [] {
      FilterFilter(xs[1..], p, q);
    }
  }

  /** Filtering a sequence with a single rejected position removes exactly that position. */
  lemma {:induction false} FilterDropsOne<T(!new)>(xs: seq<T>, keep: T -> bool, k: nat)
    requires k < |xs| && !keep(xs[k])
    requires forall i :: 0 <= i < |xs| && i != k ==> keep(xs[i])
    ensures Filter(xs, keep) == xs[..k] + xs[k + 1..]
  {
    assert xs == xs[..k] + [xs[k]] + xs[k + 1..];
    FilterAppend(xs[..k] + [xs[k]], xs[k + 1..], keep);
    FilterAppend(xs[..k], [xs[k]], keep);
    FilterKeepsAll(xs[..k], keep);
    FilterKeepsAll(xs[k + 1..], keep);
  }

  /** A filter and the filter with the opposite test split the sequence between them. */
  lemma {:induction false} FilterComplement<T(!new)>(xs: seq<T>, keep: T -> bool, drop: T -> bool)
    requires forall x :: drop(x) == !keep(x)
    ensures |Filter(xs, keep)| + |Filter(xs, drop)| == |xs|
  {
    if xs != [] {
      FilterComplement(xs[1..], keep, drop);
    }
  }

  /** JavaScript's reading of a `slice` bound: negative counts from the end, then clamped to `[0, len]`. */
  function JsIndex(i: int, len: nat): (r: nat)
    ensures r <= len
    ensures 0 <= i <= len ==> r == i
    ensures i > len ==> r == len
    ensures i < 0 && 0 <= len + i ==> r == len + i
    ensures len + i < 0 ==> r == 0
  {
    if i < 0 then (if len + i < 0 then 0 else len + i)
    else if i > len then len
    else i
  }

  /** `xs.slice(start, end)`. */
  function JsSlice<T>(xs: seq<T>, start: int, end: int): (r: seq<T>)
    ensures 0 <= start <= end ==> |r| <= end - start
    ensures 0 <= start <= end ==> r == xs[JsIndex(start, |xs|)..JsIndex(end, |xs|)]
  {
    var s, e := JsIndex(start, |xs|), JsIndex(end, |xs|);
    if s <= e then xs[s..e] else []
  }
}
