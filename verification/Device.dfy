// lab2/KboardModule.c: the board itself and what one thread does with it inside its critical
// section, as the methods a thread runs when nobody interferes. Kboard has the same sections step
// by step for threads that do.
module Device {
  import opened Ring
  import opened Fifo

  class Device {
    const RingBuffer: array<int>
    var RingBufferCount: int
    var RingBufferCurrentIndex: int
    var PerformWriter: int
    var PerformReader: int
    ghost var Contents: Queue // what the ring stands for

    ghost predicate Valid()
      reads this, RingBuffer
    {
      && Represents(RingBuffer[..], RingBufferCount, RingBufferCurrentIndex, Contents.items)
      && RingBufferCurrentIndex == Contents.removed % RingBuffer.Length
    }

    constructor (capacity: nat)
      requires capacity > 0
      ensures Valid() && fresh(RingBuffer) && RingBuffer.Length == capacity
      ensures Contents == EMPTY_QUEUE && PerformWriter == PerformReader == 0
    {
      RingBuffer := new int[capacity](i => 0);
      RingBufferCount, RingBufferCurrentIndex, PerformWriter, PerformReader := 0, 0, 0, 0;
      Contents := EMPTY_QUEUE;
      new;
      InitializeKboard();
    }

    // Lines 216-231.
    method InitializeKboard()
      requires RingBuffer.Length > 0
      modifies this, RingBuffer
      ensures Valid() && Contents == EMPTY_QUEUE && PerformWriter == PerformReader == 0
    {
      for index := 0 to RingBuffer.Length
        invariant forall i :: 0 <= i < index ==> RingBuffer[i] == EMPTY_SLOT
      {
        RingBuffer[index] := EMPTY_SLOT;
      }
      RingBufferCount := 0;
      RingBufferCurrentIndex := 0;
      PerformWriter := 0;
      PerformReader := 0;
      Contents := EMPTY_QUEUE;
      EmptyRepresents(RingBuffer[..]);
    }

    // KboardWriter_Show, lines 417-430.
    method Show() returns (response: Response)
      requires Valid()
      modifies this, RingBuffer
      ensures Valid() && (Contents, response) == Apply(RingBuffer.Length, old(Contents), Dequeue)
      ensures PerformWriter == old(PerformWriter) + 1 && PerformReader == old(PerformReader)
      ensures response.Empty? ==> RingBuffer[..] == old(RingBuffer[..])
    {
      PerformWriter := PerformWriter + 1;
      if RingBufferCount <= 0 {
        return Empty;
      }
      ClearRepresents(RingBuffer[..], RingBufferCount, RingBufferCurrentIndex, Contents.items);
      NextIndex(RingBuffer.Length, Contents.removed);
      var item := RingBuffer[RingBufferCurrentIndex];
      RingBuffer[RingBufferCurrentIndex] := EMPTY_SLOT;
      RingBufferCount := RingBufferCount - 1;
      RingBufferCurrentIndex := (RingBufferCurrentIndex + 1) % RingBuffer.Length;
      Contents := Queue(Contents.items[1..], Contents.removed + 1);
      assert RingBuffer[..] == old(RingBuffer[..])[old(RingBufferCurrentIndex) := EMPTY_SLOT];
      return Removed(item);
    }

    // KboardWriter_Write, lines 469-488.
    method Write(item: int) returns (response: Response)
      requires Valid()
      modifies this, RingBuffer
      ensures Valid() && (Contents, response) == Apply(RingBuffer.Length, old(Contents), Enqueue(item))
      ensures PerformWriter == old(PerformWriter) + (if item < 0 then 0 else 1) && PerformReader == old(PerformReader)
      ensures !response.Stored? ==> RingBuffer[..] == old(RingBuffer[..])
    {
      if item < 0 {
        return Invalid;
      }
      PerformWriter := PerformWriter + 1;
      if RingBufferCount >= RingBuffer.Length {
        return Full;
      }
      FillRepresents(RingBuffer[..], RingBufferCount, RingBufferCurrentIndex, Contents.items, item);
      RingBuffer[(RingBufferCurrentIndex + RingBufferCount) % RingBuffer.Length] := item;
      RingBufferCount := RingBufferCount + 1;
      Contents := Queue(Contents.items + [item], Contents.removed);
      assert RingBuffer[..] ==
             old(RingBuffer[..])[(RingBufferCurrentIndex + old(RingBufferCount)) % RingBuffer.Length := item];
      return Stored;
    }

    // KboardReader_Show, lines 510-517; random is what get_random_bytes delivers.
    method Look(random: nat) returns (response: Response)
      requires Valid()
      modifies this`PerformReader
      ensures Valid() && (Contents, response) == Apply(RingBuffer.Length, old(Contents), Peek(random))
      ensures PerformReader == old(PerformReader) + 1
    {
      var randomIndex := random % RingBuffer.Length;
      PerformReader := PerformReader + 1;
      OffsetIsMod(RingBuffer.Length, Contents.removed, randomIndex);
      return Shown(RingBuffer[randomIndex]);
    }
  }
}
