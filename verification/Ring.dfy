// The bounded ring of both kernel parts, and the queue it stands for.
module Ring {

  // RING_BUFFER_INIT_VALUE (lab2/KboardModule.c:24) and INIT_VALUE (lab1/kernel/os_kboard.c:7).
  const EMPTY_SLOT: int := -1

  // The operator % of C, which rounds the quotient toward zero: the remainder has the sign of a.
  function Remainder(a: int, cap: int): (r: int)
    requires 0 < cap
    ensures -cap < r < cap && (a >= 0 ==> r == a % cap) && (a < 0 ==> r <= 0)
  {
    if a >= 0 then a % cap else -((-a) % cap)
  }

  // How far slot is behind index, going round a ring of capacity cap.
  function Offset(cap: nat, index: nat, slot: nat): (k: nat)
    requires index < cap && slot < cap
    ensures k < cap
  {
    if slot >= index then slot - index else slot + cap - index
  }

  // The window of length count that starts at index and wraps round holds exactly items, in order;
  // every slot outside it holds the empty marker.
  ghost predicate Represents(ring: seq<int>, count: int, index: int, items: seq<int>) {
    && 0 <= index < |ring|
    && count == |items| <= |ring|
    && (forall k :: 0 <= k < |items| ==> items[k] >= 0)
    && forall i :: 0 <= i < |ring| ==> ring[i] == At(items, Offset(|ring|, index, i))
  }

  function At(items: seq<int>, k: nat): int {
    if k < |items| then items[k] else EMPTY_SLOT
  }

  lemma Wrapped(a: nat, cap: nat)
    requires 0 < cap && a < 2 * cap
    ensures a % cap == if a < cap then a else a - cap
  {
    if a >= cap { ModMinus(a, cap, 1); }
  }

  lemma {:induction false} ModMinus(a: int, cap: nat, k: nat)
    requires 0 < cap
    ensures (a - k * cap) % cap == a % cap
  {
    if k > 0 {
      ModMinus(a, cap, k - 1);
      var b := a - (k - 1) * cap;
      assert a - k * cap == b - cap;
      assert b == cap * (b / cap) + b % cap;
      assert b - cap == cap * (b / cap - 1) + b % cap;
      ModUnique(b - cap, cap, b / cap - 1, b % cap);
    }
  }

  lemma {:induction false} Multiple(cap: nat, d: nat)
    requires d >= 1
    ensures cap * d >= cap
  {
    if d > 1 {
      Multiple(cap, d - 1);
      assert cap * d == cap * (d - 1) + cap;
    }
  }

  lemma ModUnique(a: int, cap: nat, q: int, r: int)
    requires 0 < cap && 0 <= r < cap && a == cap * q + r
    ensures a % cap == r
  {
    QuotientUnique(cap, q, r, a / cap, a % cap);
  }

  lemma QuotientUnique(cap: nat, q: int, r: int, q': int, r': int)
    requires 0 < cap && 0 <= r < cap && 0 <= r' < cap && cap * q + r == cap * q' + r'
    ensures r == r'
  {
    assert cap * (q - q') == cap * q - cap * q';
    assert cap * (q' - q) == cap * q' - cap * q;
    if q > q' { Multiple(cap, q - q'); }
    if q < q' { Multiple(cap, q' - q); }
  }

  // Offset is subtraction modulo the capacity, from any number of removals that leads to this index.
  lemma OffsetIsMod(cap: nat, removed: nat, slot: nat)
    requires 0 < cap && slot < cap
    ensures Offset(cap, removed % cap, slot) == (slot - removed) % cap
  {
    var index, q := removed % cap, removed / cap;
    assert slot - removed == slot - index - q * cap;
    ModMinus(slot - index, cap, q);
    if slot >= index {
      ModUnique(slot - index, cap, 0, slot - index);
    } else {
      ModUnique(slot - index, cap, -1, slot + cap - index);
    }
  }

  lemma NextIndex(cap: nat, removed: nat)
    requires 0 < cap
    ensures (removed % cap + 1) % cap == (removed + 1) % cap
  {
    var q := removed / cap;
    assert removed + 1 == cap * q + (removed % cap + 1);
    if removed % cap + 1 < cap {
      ModUnique(removed + 1, cap, q, removed % cap + 1);
      ModUnique(removed % cap + 1, cap, 0, removed % cap + 1);
    } else {
      ModUnique(removed + 1, cap, q + 1, 0);
      ModUnique(removed % cap + 1, cap, 1, 0);
    }
  }

  // Storing behind the window appends to the queue.
  lemma FillRepresents(ring: seq<int>, count: int, index: int, items: seq<int>, item: int)
    requires Represents(ring, count, index, items) && count < |ring| && item >= 0
    ensures 0 <= (index + count) % |ring| < |ring| && ring[(index + count) % |ring|] == EMPTY_SLOT
    ensures Represents(ring[(index + count) % |ring| := item], count + 1, index, items + [item])
  {
    Wrapped(index + count, |ring|);
  }

  // The head of the window is the head of the queue; clearing it and moving on removes it.
  lemma ClearRepresents(ring: seq<int>, count: int, index: int, items: seq<int>)
    requires Represents(ring, count, index, items) && count > 0
    ensures ring[index] == items[0] >= 0
    ensures Represents(ring[index := EMPTY_SLOT], count - 1, (index + 1) % |ring|, items[1..])
  {
    Wrapped(index + 1, |ring|);
  }

  lemma EmptyRepresents(ring: seq<int>)
    requires |ring| > 0 && forall i :: 0 <= i < |ring| ==> ring[i] == EMPTY_SLOT
    ensures Represents(ring, 0, 0, [])
  {
  }

  // Half-way through a removal: the head slot has been cleared, count and index have not moved yet.
  ghost predicate HeadCleared(ring: seq<int>, count: int, index: int, items: seq<int>) {
    && 0 <= index < |ring| && ring[index] == EMPTY_SLOT && |items| > 0
    && Represents(ring[index := items[0]], count, index, items)
  }

  lemma ClearHead(ring: seq<int>, count: int, index: int, items: seq<int>)
    requires Represents(ring, count, index, items) && count > 0
    ensures ring[index] == items[0] && HeadCleared(ring[index := EMPTY_SLOT], count, index, items)
  {
    ClearRepresents(ring, count, index, items);
    assert ring[index := EMPTY_SLOT][index := items[0]] == ring;
  }

  lemma FinishRemoval(ring: seq<int>, count: int, index: int, items: seq<int>)
    requires HeadCleared(ring, count, index, items)
    ensures Represents(ring, count - 1, (index + 1) % |ring|, items[1..])
  {
    var before := ring[index := items[0]];
    ClearRepresents(before, count, index, items);
    assert before[index := EMPTY_SLOT] == ring;
  }

  // Half-way through an insertion: the slot behind the window has been filled, count has not moved yet.
  ghost predicate TailFilled(ring: seq<int>, count: int, index: int, items: seq<int>, item: int) {
    && 0 <= index < |ring| && 0 <= count < |ring|
    && ring[(index + count) % |ring|] == item >= 0
    && Represents(ring[(index + count) % |ring| := EMPTY_SLOT], count, index, items)
  }

  lemma FillTail(ring: seq<int>, count: int, index: int, items: seq<int>, item: int)
    requires Represents(ring, count, index, items) && count < |ring| && item >= 0
    ensures TailFilled(ring[(index + count) % |ring| := item], count, index, items, item)
  {
    FillRepresents(ring, count, index, items, item);
    assert ring[(index + count) % |ring| := item][(index + count) % |ring| := EMPTY_SLOT] == ring;
  }

  lemma FinishInsertion(ring: seq<int>, count: int, index: int, items: seq<int>, item: int)
    requires TailFilled(ring, count, index, items, item)
    ensures Represents(ring, count + 1, index, items + [item])
  {
    var slot := (index + count) % |ring|;
    var before := ring[slot := EMPTY_SLOT];
    FillRepresents(before, count, index, items, item);
    assert before[slot := item] == ring;
  }
}
