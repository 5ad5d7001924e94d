// A fixed-capacity vector of at most four elements: four optional slots
// and a length, filled by `push` and by deserialising a sequence.

module StackVec {
  import opened Types

  class StackVec4<A> {
    var len: nat
    var data: array<Option<A>>

    /** The first `len` slots are filled, the others are empty. */
    ghost predicate Valid()
      reads this, data
    {
      data.Length == 4 && len <= 4 &&
      (forall i :: 0 <= i < len ==> data[i].Some?) &&
      (forall i :: len <= i < 4 ==> data[i].None?)
    }

    /** The values in the filled prefix, in order. */
    ghost function Contents(): seq<A>
      requires Valid()
      reads this, data
    {
      Filled(data[..], len)
    }

    /** An empty vector: length 0, every slot `None`. */
    constructor Default()
      ensures Valid() && fresh(data)
      ensures len == 0 && Contents() == []
    {
      len := 0;
      data := new Option<A>[4](_ => None);
    }

    /** Writes the value into the first free slot without a bounds check,
        so the caller must leave room for it. */
    method Push(val: A)
      requires Valid() && len < 4
      modifies this, data
      ensures Valid() && data == old(data)
      ensures len == old(len) + 1
      ensures Contents() == old(Contents()) + [val]
    {
      data[len] := Some(val);
      len := len + 1;
      FilledUnchanged(old(data[..]), len - 1, Some(val));
    }
  }

  /** The values of the first `n` slots, all of which are filled. */
  ghost function Filled<A>(d: seq<Option<A>>, n: nat): (r: seq<A>)
    requires n <= |d| && forall i :: 0 <= i < n ==> d[i].Some?
    ensures |r| == n && forall i :: 0 <= i < n ==> d[i] == Some(r[i])
  {
    if n == 0 then [] else Filled(d, n - 1) + [d[n - 1].value]
  }

  /** Filling slot `k` extends the prefix of length `k` by that value. */
  lemma {:induction false} FilledUnchanged<A>(d: seq<Option<A>>, k: nat, x: Option<A>)
    requires k < |d| && x.Some? && forall i :: 0 <= i < k ==> d[i].Some?
    ensures Filled(d[k := x], k + 1) == Filled(d, k) + [x.value]
  {
    var d' := d[k := x];
    assert forall i :: 0 <= i < k ==> d'[i] == d[i];
    FilledPrefix(d, d', k);
  }

  lemma {:induction false} FilledPrefix<A>(d: seq<Option<A>>, d': seq<Option<A>>, n: nat)
    requires n <= |d| && n <= |d'| && forall i :: 0 <= i < n ==> d[i].Some? && d'[i] == d[i]
    ensures Filled(d, n) == Filled(d', n)
  {
    if n > 0 {
      FilledPrefix(d, d', n - 1);
    }
  }

  /** Deserialisation of a sequence into a fresh vector, element by element.
      Pushing a fifth element would write past the end, so the input is
      limited to four elements. */
  method VisitSeq<A>(elements: seq<A>) returns (v: StackVec4<A>)
    requires |elements| <= 4
    ensures fresh(v) && fresh(v.data) && v.Valid()
    ensures v.Contents() == elements
  {
    v := new StackVec4.Default();
    var idx := 0;
    while idx < |elements|
      invariant 0 <= idx <= |elements|
      invariant fresh(v.data) && v.Valid() && v.len == idx
      invariant v.Contents() == elements[..idx]
    {
      v.Push(elements[idx]);
      idx := idx + 1;
    }
    assert elements[..idx] == elements;
  }
}
