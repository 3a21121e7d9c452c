/**
  The doubly linked list of src/queue.c.  `items` is the list it stands for; every
  pointer is determined by it.
  */
module Queue {
  class Item<T> {
    var next: Item?<T>
    var prev: Item?<T>
    const value: T

    constructor (value: T)
      ensures this.value == value
    {
      this.value := value;
      next, prev := null, null;
    }
  }

  class List<T(0)> {
    var size: int
    var head: Item?<T>
    var tail: Item?<T>
    ghost var items: seq<Item<T>>
    ghost var values: seq<T>

    ghost function At(i: int): Item?<T>
      reads this
    {
      if 0 <= i < |items| then items[i] else null
    }

    ghost predicate Valid()
      reads this, items
    {
      Linked() && |items| == |values| && forall i :: 0 <= i < |items| ==> items[i].value == values[i]
    }

    /** Every pointer is where the order of the items says. */
    ghost predicate Linked()
      reads this, items
    {
      && size == |items|
      && head == At(0) && tail == At(|items| - 1)
      && (forall i {:trigger items[i].prev} :: 0 <= i < |items| ==> items[i].prev == At(i - 1))
      && (forall i {:trigger items[i].next} :: 0 <= i < |items| ==> items[i].next == At(i + 1))
      && (forall i, j :: 0 <= i < j < |items| ==> items[i] != items[j])
    }

    constructor ()
      ensures Valid() && items == [] && values == []
    {
      size, head, tail, items, values := 0, null, null, [], [];
    }

    /** Appends an item that is in no list; only the old tail is relinked. */
    method Push(item: Item<T>)
      requires Valid() && item !in items
      modifies this, item`next, item`prev, if tail == null then {} else {tail}`next
      ensures Valid() && items == old(items) + [item] && values == old(values) + [item.value]
    {
      if tail == null {
        tail, head := item, item;
        item.prev, item.next := null, null;
      } else {
        tail.next := item;
        item.prev, item.next := tail, null;
        tail := item;
      }
      size := size + 1;
      items, values := items + [item], values + [item.value];
    }

    method PushNew(value: T)
      requires Valid()
      modifies this, if tail == null then {} else {tail}`next
      ensures Valid() && |items| == |old(items)| + 1 && items[..|old(items)|] == old(items)
      ensures fresh(items[|old(items)|]) && values == old(values) + [value]
    {
      var item := new Item(value);
      Push(item);
    }

    /** Unlinks the member at position `k`, wherever it is; its two neighbours are joined. */
    method Unlink(item: Item<T>, ghost k: nat)
      requires Linked() && k < |items| && items[k] == item
      modifies this`head, this`tail, this`size, this`items, items`next, items`prev
      ensures Linked() && items == old(items[..k] + items[k + 1..])
    {
      if head == item && tail == item {
        head, tail := null, null;
      } else if head == item {
        head := item.next;
        head.prev := null;
      } else if tail == item {
        tail := item.prev;
        tail.next := null;
      } else {
        item.next.prev := item.prev;
        item.prev.next := item.next;
      }
      size := size - 1;
      items := items[..k] + items[k + 1..];
    }

    /** Removes that member and hands out its value. */
    method Remove(item: Item<T>, ghost k: nat) returns (value: T)
      requires Valid() && k < |items| && items[k] == item
      modifies this, items`next, items`prev
      ensures Valid() && items == old(items[..k] + items[k + 1..]) && values == old(values)[..k] + old(values)[k + 1..]
      ensures value == item.value
    {
      Unlink(item, k);
      value := item.value;
      values := values[..k] + values[k + 1..];
    }

    /** Takes the first item; on an empty list nothing happens and there is no value. */
    method Shift() returns (found: bool, value: T)
      requires Valid()
      modifies this, items`next, items`prev
      ensures Valid() && found == (old(items) != [])
      ensures if found then items == old(items)[1..] && values == old(values)[1..] && value == old(values)[0]
              else items == [] && values == []
    {
      if head == null { return false, *; }
      value := Remove(head, 0);
      found := true;
    }

    /** Takes the last item; on an empty list nothing happens and there is no value. */
    method Pop() returns (found: bool, value: T)
      requires Valid()
      modifies this, items`next, items`prev
      ensures Valid() && found == (old(items) != [])
      ensures var n := |old(items)| - 1;
              if found then items == old(items)[..n] && values == old(values)[..n] && value == old(values)[n]
              else items == [] && values == []
    {
      if tail == null { return false, *; }
      value := Remove(tail, |items| - 1);
      found := true;
    }
  }
}
