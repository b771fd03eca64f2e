/** The growable array of dokan/dokan_vector.c. Allocations succeed. */
module DokanVector {
  import opened Options

  const DEFAULT_ITEM_COUNT: nat := 128

  class Vector<T> {
    var items: array<T>   // MaxItems is its length
    var itemCount: nat
    const filler: T       // what fresh memory holds

    ghost predicate Valid()
      reads this
    {
      itemCount <= items.Length
    }

    ghost function Contents(): seq<T>
      reads this, items
      requires Valid()
    {
      items[..itemCount]
    }

    /** DokanVector_AllocWithCapacity. */
    constructor (maxItems: nat, filler: T)
      ensures Valid() && fresh(items) && Contents() == [] && items.Length == maxItems
    {
      this.filler := filler;
      items := new T[maxItems](_ => filler);
      itemCount := 0;
    }

    /** The contents stay, and there is room for the increase. */
    method Grow(minimumIncrease: nat)
      requires Valid()
      modifies this
      ensures Valid() && fresh(items) && Contents() == old(Contents()) && itemCount == old(itemCount)
      ensures items.Length >= old(items.Length) + minimumIncrease
      ensures items.Length >= DEFAULT_ITEM_COUNT
    {
      var newSize: nat;
      if minimumIncrease == 0 && items.Length == 0 {
        newSize := DEFAULT_ITEM_COUNT;
      } else {
        newSize := items.Length * 2;
        if newSize < DEFAULT_ITEM_COUNT { newSize := DEFAULT_ITEM_COUNT; }
        if newSize <= items.Length + minimumIncrease { newSize := items.Length + minimumIncrease + minimumIncrease; }
      }
      var old_, count, rest := items, itemCount, filler;
      var newItems := new T[newSize](_ => rest);
      forall i | 0 <= i < count { newItems[i] := old_[i]; }
      items := newItems;
    }

    /** Makes room for `count` more items unless there is more room than that. */
    method Reserve(count: nat)
      requires Valid()
      modifies this
      ensures Valid() && Contents() == old(Contents()) && itemCount == old(itemCount)
      ensures itemCount + count <= items.Length
      ensures items == old(items) || fresh(items)
    {
      if itemCount + count >= items.Length { Grow(count); }
    }

    method PushBack(item: T)
      requires Valid()
      modifies this, items
      ensures Valid() && (items == old(items) || fresh(items))
      ensures Contents() == old(Contents()) + [item]
    {
      Reserve(1);
      items[itemCount] := item;
      itemCount := itemCount + 1;
    }

    method PushBackArray(added: seq<T>)
      requires Valid()
      modifies this, items
      ensures Valid() && (items == old(items) || fresh(items))
      ensures Contents() == old(Contents()) + added
    {
      if |added| == 0 { return; }
      Reserve(|added|);
      var n := itemCount;
      forall i | 0 <= i < |added| { items[n + i] := added[i]; }
      itemCount := itemCount + |added|;
    }

    /** Shifts the items once, then copies the new ones to the front. */
    method PushFrontArray(added: seq<T>)
      requires Valid()
      modifies this, items
      ensures Valid() && (items == old(items) || fresh(items))
      ensures Contents() == added + old(Contents())
    {
      if |added| == 0 { return; }
      Reserve(|added|);
      ShiftRight(items, itemCount, |added|);
      forall i | 0 <= i < |added| { items[i] := added[i]; }
      itemCount := itemCount + |added|;
    }

    method PushFront(item: T)
      requires Valid()
      modifies this, items
      ensures Valid() && (items == old(items) || fresh(items))
      ensures Contents() == [item] + old(Contents())
    {
      PushFrontArray([item]);
    }

    method PopBack()
      requires Valid()
      modifies this
      ensures Valid() && items == old(items)
      ensures Contents() == if old(itemCount) > 0 then old(Contents())[..old(itemCount) - 1] else []
    {
      if itemCount > 0 { itemCount := itemCount - 1; }
    }

    method PopBackArray(count: nat)
      requires Valid()
      modifies this
      ensures Valid() && items == old(items)
      ensures Contents() == if count <= old(itemCount) then old(Contents())[..old(itemCount) - count] else []
    {
      if count > itemCount { itemCount := 0; } else { itemCount := itemCount - count; }
    }

    method GetItem(index: nat) returns (item: Option<T>)
      requires Valid()
      ensures item == if index < |Contents()| then Some(Contents()[index]) else None
    {
      if index < itemCount { return Some(items[index]); }
      return None;
    }

    method GetLastItem() returns (item: Option<T>)
      requires Valid()
      ensures item == if Contents() != [] then Some(Contents()[|Contents()| - 1]) else None
    {
      if itemCount > 0 { return Some(items[itemCount - 1]); }
      return None;
    }
  }

  /** memmove to higher addresses: the ranges overlap, so it works from the end. */
  method ShiftRight<T>(a: array<T>, n: nat, shift: nat)
    requires n + shift <= a.Length
    modifies a
    ensures a[shift..shift + n] == old(a[..n])
    ensures a[shift + n..] == old(a[shift + n..])
  {
    var i: nat := n;
    while i > 0
      invariant i <= n
      invariant forall k :: 0 <= k < i ==> a[k] == old(a[k])
      invariant forall k :: i <= k < n ==> a[shift + k] == old(a[k])
      invariant forall k :: shift + n <= k < a.Length ==> a[k] == old(a[k])
    {
      i := i - 1;
      a[shift + i] := a[i];
    }
  }
}
