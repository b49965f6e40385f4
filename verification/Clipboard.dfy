// lab1/kernel/os_kboard.c: the clipboard system calls, each a critical section of the spinlock and
// so written here as one method on the ring they share.
module Clipboard {
  import opened Ring

  class Clipboard {
    const Ring: array<int>
    var Count: int
    var CurrentIndex: int
    ghost var Items: seq<int> // what the ring stands for

    ghost predicate Valid()
      reads this, Ring
    {
      Represents(Ring[..], Count, CurrentIndex, Items)
    }

    // Static storage before kb_init, and kb_init (lines 86-104) itself.
    constructor (capacity: nat)
      requires capacity > 0
      ensures Valid() && fresh(Ring) && Ring.Length == capacity && Items == []
    {
      Ring := new int[capacity](i => 0);
      Count, CurrentIndex, Items := 0, 0, [];
      new;
      Init();
    }

    method Init()
      requires Ring.Length > 0
      modifies this, Ring
      ensures Valid() && Items == []
    {
      var index := 0;
      while index < Ring.Length
        invariant 0 <= index <= Ring.Length
        invariant forall i :: 0 <= i < index ==> Ring[i] == EMPTY_SLOT
      {
        Ring[index] := EMPTY_SLOT;
        index := index + 1;
      }
      Count := 0;
      CurrentIndex := 0;
      Items := [];
      EmptyRepresents(Ring[..]);
    }

    // Lines 16-46: -2 for a negative item, -1 for a full ring, 0 otherwise.
    method Enqueue(item: int) returns (r: int)
      requires Valid()
      modifies this, Ring
      ensures Valid()
      ensures r == (if item < 0 then -2 else if |old(Items)| == Ring.Length then -1 else 0)
      ensures Items == if r == 0 then old(Items) + [item] else old(Items)
      ensures r != 0 ==> Ring[..] == old(Ring[..]) && Count == old(Count)
      ensures CurrentIndex == old(CurrentIndex)
    {
      if item < 0 {
        return -2;
      }
      if Count >= Ring.Length {
        return -1;
      }
      FillRepresents(Ring[..], Count, CurrentIndex, Items, item);
      Ring[(CurrentIndex + Count) % Ring.Length] := item;
      Count := Count + 1;
      Items := Items + [item];
      assert Ring[..] == old(Ring[..])[(CurrentIndex + old(Count)) % Ring.Length := item];
      return 0;
    }

    // Lines 49-83: copied says whether copy_to_user succeeds. -1 for an empty ring, -2 for a failed
    // copy, 0 otherwise; value is what the user gets in the last case.
    method Dequeue(copied: bool) returns (r: int, value: int)
      requires Valid()
      modifies this, Ring
      ensures Valid()
      ensures r == (if old(Items) == [] then -1 else if !copied then -2 else 0)
      ensures r == 0 ==> value == old(Items)[0] && Items == old(Items)[1..]
      ensures r != 0 ==> Items == old(Items) && Ring[..] == old(Ring[..])
      ensures r != 0 ==> Count == old(Count) && CurrentIndex == old(CurrentIndex)
    {
      if Count <= 0 {
        return -1, 0;
      }
      if !copied {
        return -2, 0;
      }
      ClearRepresents(Ring[..], Count, CurrentIndex, Items);
      value := Ring[CurrentIndex];
      Ring[CurrentIndex] := EMPTY_SLOT;
      Count := Count - 1;
      CurrentIndex := (CurrentIndex + 1) % Ring.Length;
      Items := Items[1..];
      assert Ring[..] == old(Ring[..])[old(CurrentIndex) := EMPTY_SLOT];
      return 0, value;
    }
  }
}
