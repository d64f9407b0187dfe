/** Python's `list.insert` and the splicing the generator performs with it:
    an argument list is first built from the non-tensor arguments only, and
    the tensor slots are then inserted one by one at their original positions. */
module Splice {

  /** Where `list.insert(i, x)` puts `x` in a list of length `n`: a negative
      index counts from the end and is clamped at 0, an index past the end appends. */
  function InsertPos(n: nat, i: int): (j: nat)
    ensures j <= n
    ensures 0 <= i <= n ==> j == i
    ensures i > n ==> j == n
    ensures 0 - n <= i < 0 ==> j == n + i
    ensures i < 0 - n ==> j == 0
  {
    if i < 0 then (if i + n < 0 then 0 else i + n) else if i > n then n else i
  }

  /** `s.insert(i, x)` as a value. */
  function PyInsert<T>(s: seq<T>, i: int, x: T): (r: seq<T>)
    ensures |r| == |s| + 1
  {
    var j := InsertPos(|s|, i);
    s[..j] + [x] + s[j..]
  }

  /** The list left by `for (i, x) in items: s.insert(i, x)`. */
  function InsertAll<T>(s: seq<T>, items: seq<(int, T)>): (r: seq<T>)
    ensures |r| == |s| + |items|
  {
    if items == [] then s
    else
      var last := items[|items| - 1];
      PyInsert(InsertAll(s, items[..|items| - 1]), last.0, last.1)
  }

  /** The elements of `f` that are not spliced in afterwards, in order. */
  function Unmarked<T>(f: seq<T>, marked: T -> bool): (r: seq<T>)
    ensures |r| <= |f|
  {
    if f == [] then []
    else
      var init := Unmarked(f[..|f| - 1], marked);
      if marked(f[|f| - 1]) then init else init + [f[|f| - 1]]
  }

  /** The elements of `f` that are spliced in afterwards, each with its position in `f`. */
  function MarkedItems<T>(f: seq<T>, marked: T -> bool): (r: seq<(int, T)>)
  {
    if f == [] then []
    else
      var init := MarkedItems(f[..|f| - 1], marked);
      if marked(f[|f| - 1]) then init + [(|f| - 1, f[|f| - 1])] else init
  }

  /** Inserting inside a list leaves an element appended after it where it was. */
  lemma {:induction false} PyInsertBeforeLast<T>(w: seq<T>, x: T, i: int, y: T)
    requires 0 <= i <= |w|
    ensures PyInsert(w + [x], i, y) == PyInsert(w, i, y) + [x]
  {
    assert (w + [x])[..i] == w[..i];
    assert (w + [x])[i..] == w[i..] + [x];
  }

  /** Insertions that all land within `u` do not move an element appended to `u`. */
  lemma {:induction false} InsertAllBeforeLast<T>(u: seq<T>, x: T, items: seq<(int, T)>)
    requires forall k :: 0 <= k < |items| ==> 0 <= items[k].0 <= |u| + k
    ensures InsertAll(u + [x], items) == InsertAll(u, items) + [x]
  {
    if items != [] {
      var init := items[..|items| - 1];
      var last := items[|items| - 1];
      assert forall k :: 0 <= k < |init| ==> init[k] == items[k];
      InsertAllBeforeLast(u, x, init);
      PyInsertBeforeLast(InsertAll(u, init), x, last.0, last.1);
    }
  }

  /** Every spliced position is at most the number of unspliced elements plus
      the number of insertions made before it; the two parts share out `f`. */
  lemma {:induction false} MarkedItemsBound<T>(f: seq<T>, marked: T -> bool)
    ensures |Unmarked(f, marked)| + |MarkedItems(f, marked)| == |f|
    ensures forall k :: 0 <= k < |MarkedItems(f, marked)| ==>
              0 <= MarkedItems(f, marked)[k].0 <= |Unmarked(f, marked)| + k
  {
    if f != [] {
      MarkedItemsBound(f[..|f| - 1], marked);
    }
  }

  /** Splicing the marked elements back at their positions, in increasing
      order of position, rebuilds `f` exactly. */
  lemma {:induction false} RestoreOrder<T>(f: seq<T>, marked: T -> bool)
    ensures InsertAll(Unmarked(f, marked), MarkedItems(f, marked)) == f
  {
    if f != [] {
      var init := f[..|f| - 1];
      var x := f[|f| - 1];
      RestoreOrder(init, marked);
      MarkedItemsBound(init, marked);
      if marked(x) {
        var items := MarkedItems(f, marked);
        assert items[..|items| - 1] == MarkedItems(init, marked);
        assert PyInsert(init, |init|, x) == init + [x];
      } else {
        InsertAllBeforeLast(Unmarked(init, marked), x, MarkedItems(init, marked));
      }
      assert init + [x] == f;
    }
  }
}
