/**
 * `MyList` with its forward and reverse cursor iterators. Both iterators hold
 * the list object itself, not a copy, so a change to the list after the
 * iterator is built is seen by the next `hasNext`/`next`. `List.get` outside
 * the list throws, before the cursor moves.
 */
module Iterators {
  import opened Common
  import opened JavaList

  /** The elements of `s` from last to first. */
  function Reversed<T>(s: seq<T>): (r: seq<T>)
    ensures |r| == |s|
    ensures forall i :: 0 <= i < |s| ==> r[i] == s[|s| - 1 - i]
  {
    if s == [] then [] else [s[|s| - 1]] + Reversed(s[..|s| - 1])
  }

  /** Reversing twice gives the list back. */
  lemma ReversedTwice<T>(s: seq<T>)
    ensures Reversed(Reversed(s)) == s
  {
  }

  /** `MyList`: a private list that only grows. */
  class MyList<T(==)> {
    const items: JList<T>

    constructor ()
      ensures fresh(items) && items.elems == []
    {
      items := new JList([]);
    }

    /** `addItem`: appends. */
    method AddItem(item: T)
      modifies items
      ensures items.elems == old(items.elems) + [item]
    {
      items.Add(item);
    }

    /** `createIterator`: a forward iterator over this very list. */
    method CreateIterator() returns (it: MyListIterator<T>)
      ensures fresh(it) && it.items == items && it.position == 0
    {
      it := new MyListIterator(items);
    }
  }

  /** `MyListIterator`: the cursor starts at 0 and only moves forward. */
  class MyListIterator<T(==)> {
    const items: JList<T>
    var position: nat

    constructor (items: JList<T>)
      ensures this.items == items && position == 0
    {
      this.items := items;
      position := 0;
    }

    /** `hasNext`: exactly when `next` has an element to return. */
    predicate HasNext()
      reads this, items
      ensures HasNext() <==> position < |items.elems|
    {
      position < |items.elems|
    }

    /** `next`: the element under the cursor, then one step on; past the end `get` throws. */
    method Next() returns (r: Result<T>)
      modifies this
      ensures old(position) < |items.elems| ==> r == Ok(items.elems[old(position)]) && position == old(position) + 1
      ensures old(position) >= |items.elems| ==> r == Fail(IndexOutOfBounds) && position == old(position)
    {
      if position >= |items.elems| {
        return Fail(IndexOutOfBounds);
      }
      r := Ok(items.elems[position]);
      position := position + 1;
    }
  }

  /** `MyReverseListIterator`: the cursor is fixed at size-1 when built and only moves back. */
  class MyReverseListIterator<T(==)> {
    const items: JList<T>
    var position: int

    /** The cursor never goes below -1: `next` at -1 throws before moving. */
    ghost predicate Valid()
      reads this
    {
      position >= -1
    }

    constructor (items: JList<T>)
      ensures this.items == items && position == |items.elems| - 1
      ensures Valid()
    {
      this.items := items;
      position := |items.elems| - 1;
    }

    /** `hasNext`: the cursor has not passed the front; it does not look at the list's size. */
    predicate HasNext()
      reads this
      ensures HasNext() <==> position >= 0
      ensures Valid() && !HasNext() ==> position == -1
    {
      position >= 0
    }

    /** `next`: the element under the cursor, then one step back; outside the list `get` throws. */
    method Next() returns (r: Result<T>)
      requires Valid()
      modifies this
      ensures Valid()
      ensures 0 <= old(position) < |items.elems| ==> r == Ok(items.elems[old(position)]) && position == old(position) - 1
      ensures !(0 <= old(position) < |items.elems|) ==> r == Fail(IndexOutOfBounds) && position == old(position)
    {
      if position < 0 || position >= |items.elems| {
        return Fail(IndexOutOfBounds);
      }
      r := Ok(items.elems[position]);
      position := position - 1;
    }
  }

  /** The elements a forward iterator still has to give, or none once the list shrank below the cursor. */
  function Remaining<T>(s: seq<T>, position: nat): (r: seq<T>)
    ensures position <= |s| ==> |r| == |s| - position && forall k :: 0 <= k < |r| ==> r[k] == s[position + k]
    ensures position > |s| ==> r == []
  {
    if position <= |s| then s[position..] else []
  }

  /** `while (it.hasNext()) it.next()`: the list from the cursor on, in order. */
  method DrainForward<T(==)>(it: MyListIterator<T>) returns (out: seq<T>)
    modifies it
    ensures out == Remaining(it.items.elems, old(it.position))
    ensures it.position == if old(it.position) <= |it.items.elems| then |it.items.elems| else old(it.position)
  {
    ghost var s, p0 := it.items.elems, it.position;
    out := [];
    while it.HasNext()
      invariant it.items.elems == s
      invariant p0 <= |s| ==> p0 <= it.position <= |s| && out == s[p0..it.position]
      invariant p0 > |s| ==> it.position == p0 && out == []
      decreases |s| - it.position
    {
      var r := it.Next();
      out := out + [r.value];
    }
  }

  /**
   * `while (it.hasNext()) it.next()` on a reverse iterator: the list up to the
   * cursor, last first; if the list shrank below the cursor the first `next` throws.
   */
  method DrainReverse<T(==)>(it: MyReverseListIterator<T>) returns (r: Result<seq<T>>)
    requires it.Valid()
    modifies it
    ensures it.Valid()
    ensures old(it.position) < |it.items.elems| ==> r == Ok(Reversed(it.items.elems[..old(it.position) + 1])) && it.position == -1
    ensures old(it.position) >= |it.items.elems| ==> r == Fail(IndexOutOfBounds)
  {
    ghost var s, p0 := it.items.elems, it.position;
    if it.position >= |it.items.elems| {
      var x := it.Next();
      return Fail(x.fault);
    }
    var out: seq<T> := [];
    while it.HasNext()
      invariant it.Valid() && it.items.elems == s
      invariant it.position <= p0 && |out| == p0 - it.position
      invariant forall k :: 0 <= k < |out| ==> out[k] == s[p0 - k]
      decreases it.position
    {
      var x := it.Next();
      out := out + [x.value];
    }
    assert out == Reversed(s[..p0 + 1]);
    r := Ok(out);
  }

  /** Draining a forward iterator from a fresh cursor gives the list in order. */
  lemma ForwardFromStart<T>(s: seq<T>)
    ensures Remaining(s, 0) == s
  {
  }

  /** A fresh reverse cursor covers the whole list: draining gives it reversed, and reversing that gives it back. */
  lemma ReverseFromStart<T>(s: seq<T>)
    ensures s[..(|s| - 1) + 1] == s
    ensures Reversed(Reversed(s[..(|s| - 1) + 1])) == s
  {
    assert s[..|s|] == s;
    ReversedTwice(s);
  }

  /** The list of the example, with its three items as parameters: both iterators drain it, forward then reverse. */
  method Example<T(==)>(apple: T, banana: T, cherry: T) returns (forward: seq<T>, backward: Result<seq<T>>)
    ensures forward == [apple, banana, cherry]
    ensures backward == Ok([cherry, banana, apple])
  {
    var list := new MyList<T>();
    list.AddItem(apple);
    list.AddItem(banana);
    list.AddItem(cherry);
    var it := list.CreateIterator();
    forward := DrainForward(it);
    var rev := new MyReverseListIterator(list.items);
    var s := list.items.elems;
    assert s == [apple, banana, cherry];
    backward := DrainReverse(rev);
    assert s[..3] == s;
    var r := Reversed(s);
    assert r[0] == cherry && r[1] == banana && r[2] == apple;
    assert r == [cherry, banana, apple];
  }

  /**
   * Both iterators built on [a, b], then c appended: the forward one visits c,
   * the reverse one never does.
   */
  method AppendAfterCreation<T(==)>(a: T, b: T, c: T) returns (forward: seq<T>, backward: Result<seq<T>>)
    ensures forward == [a, b, c]
    ensures backward == Ok([b, a])
  {
    var items := new JList([a, b]);
    var fwd := new MyListIterator(items);
    var rev := new MyReverseListIterator(items);
    items.Add(c);
    forward := DrainForward(fwd);
    backward := DrainReverse(rev);
    var r := Reversed(items.elems[..2]);
    assert items.elems[..2] == [a, b];
    assert r[0] == b && r[1] == a;
    assert r == [b, a];
  }

  /** A reverse iterator built on three elements, then one removed: its cursor is past the end and `next` throws. */
  method RemoveAfterCreation<T(==)>(a: T, b: T, c: T) returns (shrunk: Result<T>)
    ensures shrunk == Fail(IndexOutOfBounds)
  {
    var items := new JList([a, b, c]);
    var rev := new MyReverseListIterator(items);
    var _ := items.Remove(c);
    shrunk := rev.Next();
  }
}
