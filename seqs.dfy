/** Order-preserving selection over sequences: the model of JavaScript's
    `Array.prototype.filter`, shared by the roster filters and the
    message-table filter. */
module Seqs {

  /** The elements of `s` that satisfy `keep`, in their original order. */
  function Filter<T>(s: seq<T>, keep: T -> bool): (r: seq<T>)
    ensures |r| <= |s|
    decreases |s|
  {
    if s == [] then []
    else if keep(s[0]) then [s[0]] + Filter(s[1..], keep)
    else Filter(s[1..], keep)
  }

  /** The filtered sequence holds exactly the elements of `s` that satisfy
      `keep`. */
  lemma {:induction false} FilterMembers<T>(s: seq<T>, keep: T -> bool)
    ensures forall i :: 0 <= i < |Filter(s, keep)| ==> Filter(s, keep)[i] in s && keep(Filter(s, keep)[i])
    ensures forall i :: 0 <= i < |s| && keep(s[i]) ==> s[i] in Filter(s, keep)
    decreases |s|
  {
    if s != [] {
      FilterMembers(s[1..], keep);
    }
  }

  /** Filtering distributes over concatenation: together with the singleton
      cases this says the result keeps the original relative order. */
  lemma {:induction false} FilterAppend<T>(a: seq<T>, b: seq<T>, keep: T -> bool)
    ensures Filter(a + b, keep) == Filter(a, keep) + Filter(b, keep)
    decreases |a|
  {
    if a == [] {
      assert a + b == b;
    } else {
      assert (a + b)[0] == a[0];
      assert (a + b)[1..] == a[1..] + b;
      FilterAppend(a[1..], b, keep);
    }
  }

  /** Filtering a whole sequence with a predicate every element meets gives the
      sequence back; with one no element meets, the empty sequence. */
  lemma {:induction false} FilterAll<T>(s: seq<T>, keep: T -> bool)
    requires forall i :: 0 <= i < |s| ==> keep(s[i])
    ensures Filter(s, keep) == s
    decreases |s|
  {
    if s != [] {
      FilterAll(s[1..], keep);
    }
  }

  lemma {:induction false} FilterNone<T>(s: seq<T>, keep: T -> bool)
    requires forall i :: 0 <= i < |s| ==> !keep(s[i])
    ensures Filter(s, keep) == []
    decreases |s|
  {
    if s != [] {
      FilterNone(s[1..], keep);
    }
  }

  /** How many elements of `s` satisfy `keep`. */
  function Count<T>(s: seq<T>, keep: T -> bool): (n: nat)
    ensures n <= |s|
    decreases |s|
  {
    if s == [] then 0 else (if keep(s[0]) then 1 else 0) + Count(s[1..], keep)
  }

  /** The filtered sequence has exactly as many elements as satisfy `keep`. */
  lemma {:induction false} FilterLength<T>(s: seq<T>, keep: T -> bool)
    ensures |Filter(s, keep)| == Count(s, keep)
    decreases |s|
  {
    if s != [] {
      FilterLength(s[1..], keep);
    }
  }
}
