// The loops of lab1/user/copy_sync_test.c and paste_sync_test.c, taking turns on one clipboard.
module CopyPasteLoops {
  import opened CopyPaste
  import opened Clipboard

  // Whose turn it is; for a paste, whether the copy to user space succeeds. A turn is one system
  // call with the test of its result, or what the loop does next after a call that succeeded:
  // value++ in the producer, the comparison and expectValue++ in the consumer.
  datatype Turn = CopyTurn | PasteTurn(copied: bool)

  // The two loops as counts: numbers accepted, numbers compared, and whether each loop is between a
  // call that succeeded and what it does next.
  datatype Loops = Loops(accepted: nat, compared: nat, stored: bool, fetched: bool) {
    function Removed(): nat {
      if fetched then compared + 1 else compared
    }
  }

  predicate Possible(capacity: nat, l: Loops) {
    l.Removed() <= l.accepted <= l.Removed() + capacity && l.accepted <= INT_MAX + 1
  }

  // What a turn comes to: the producer is refused when the ring is full or it has passed INT_MAX,
  // the consumer when the ring is empty or the copy fails.
  function TakeTurn(capacity: nat, l: Loops, turn: Turn): (r: Loops)
    requires Possible(capacity, l)
    ensures Possible(capacity, r)
  {
    match turn
    case CopyTurn =>
      if l.stored then l.(stored := false)
      else if l.accepted - l.Removed() < capacity && l.accepted <= INT_MAX then
        l.(accepted := l.accepted + 1, stored := true)
      else l
    case PasteTurn(copied) =>
      if l.fetched then l.(compared := l.compared + 1, fetched := false)
      else if l.accepted - l.Removed() > 0 && copied then l.(fetched := true)
      else l
  }

  function Play(capacity: nat, turns: seq<Turn>): (r: Loops)
    ensures Possible(capacity, r)
  {
    if turns == [] then Loops(0, 0, false, false)
    else TakeTurn(capacity, Play(capacity, turns[..|turns| - 1]), turns[|turns| - 1])
  }

  lemma PlayMore(capacity: nat, turns: seq<Turn>, turn: Turn)
    ensures Play(capacity, turns + [turn]) == TakeTurn(capacity, Play(capacity, turns), turn)
  {
    assert (turns + [turn])[..|turns|] == turns;
  }

  // k turns of the same kind.
  function Repeat(turn: Turn, k: nat): seq<Turn> {
    if k == 0 then [] else Repeat(turn, k - 1) + [turn]
  }

  lemma PlayRepeat(capacity: nat, turns: seq<Turn>, turn: Turn, k: nat)
    ensures Play(capacity, turns + Repeat(turn, 0)) == Play(capacity, turns)
    ensures Play(capacity, turns + Repeat(turn, k + 1)) ==
            TakeTurn(capacity, Play(capacity, turns + Repeat(turn, k)), turn)
  {
    assert turns + Repeat(turn, 0) == turns;
    assert turns + Repeat(turn, k + 1) == turns + Repeat(turn, k) + [turn];
    PlayMore(capacity, turns + Repeat(turn, k), turn);
  }

  // A number that is in the ring takes the consumer two turns, one that is fetched takes it one.
  function PasteTurns(l: Loops): int {
    2 * (l.accepted - l.Removed()) + (if l.fetched then 1 else 0)
  }

  // A number for which there is room takes the producer two turns, one that is stored takes it one.
  function CopyTurns(capacity: nat, l: Loops): int {
    2 * Room(capacity, l) + (if l.stored then 1 else 0)
  }

  // The numbers that can still be accepted before the ring is full or INT_MAX is passed.
  function Room(capacity: nat, l: Loops): int {
    var slots, numbers := capacity - (l.accepted - l.Removed()), INT_MAX + 1 - l.accepted;
    if slots < numbers then slots else numbers
  }

  function Less(a: int, k: nat): int {
    if a > k then a - k else 0
  }

  lemma PasteUsesTurn(capacity: nat, l: Loops)
    requires Possible(capacity, l)
    ensures PasteTurns(l) >= 0
    ensures var l' := TakeTurn(capacity, l, PasteTurn(true));
            l'.accepted == l.accepted && PasteTurns(l') == Less(PasteTurns(l), 1)
  {
  }

  lemma CopyUsesTurn(capacity: nat, l: Loops)
    requires Possible(capacity, l)
    ensures CopyTurns(capacity, l) >= 0
    ensures var l' := TakeTurn(capacity, l, CopyTurn);
            && l'.Removed() == l.Removed()
            && CopyTurns(capacity, l') == Less(CopyTurns(capacity, l), 1)
  {
  }

  lemma {:induction false} PasteTurnsLeft(capacity: nat, turns: seq<Turn>, k: nat)
    ensures Play(capacity, turns + Repeat(PasteTurn(true), k)).accepted == Play(capacity, turns).accepted
    ensures PasteTurns(Play(capacity, turns + Repeat(PasteTurn(true), k))) == Less(PasteTurns(Play(capacity, turns)), k)
  {
    if k == 0 {
      PlayRepeat(capacity, turns, PasteTurn(true), 0);
      PasteUsesTurn(capacity, Play(capacity, turns));
    } else {
      PasteTurnsLeft(capacity, turns, k - 1);
      PlayRepeat(capacity, turns, PasteTurn(true), k - 1);
      PasteUsesTurn(capacity, Play(capacity, turns + Repeat(PasteTurn(true), k - 1)));
    }
  }

  lemma {:induction false} CopyTurnsLeft(capacity: nat, turns: seq<Turn>, k: nat)
    ensures Play(capacity, turns + Repeat(CopyTurn, k)).Removed() == Play(capacity, turns).Removed()
    ensures CopyTurns(capacity, Play(capacity, turns + Repeat(CopyTurn, k))) ==
            Less(CopyTurns(capacity, Play(capacity, turns)), k)
  {
    if k == 0 {
      PlayRepeat(capacity, turns, CopyTurn, 0);
      CopyUsesTurn(capacity, Play(capacity, turns));
    } else {
      CopyTurnsLeft(capacity, turns, k - 1);
      PlayRepeat(capacity, turns, CopyTurn, k - 1);
      CopyUsesTurn(capacity, Play(capacity, turns + Repeat(CopyTurn, k - 1)));
    }
  }

  // After any turns, enough turns of the consumer compare everything that has been accepted,
  lemma ConsumerUsesItsTurns(capacity: nat, turns: seq<Turn>)
    ensures var l := Play(capacity, turns + Repeat(PasteTurn(true), 2 * capacity + 2));
            l.compared == l.accepted == Play(capacity, turns).accepted
  {
    PasteTurnsLeft(capacity, turns, 2 * capacity + 2);
  }

  // enough turns of the producer fill the ring or reach INT_MAX,
  lemma ProducerUsesItsTurns(capacity: nat, turns: seq<Turn>)
    ensures var l := Play(capacity, turns + Repeat(CopyTurn, 2 * capacity + 2));
            && l.Removed() == Play(capacity, turns).Removed()
            && (l.accepted == l.Removed() + capacity || l.accepted == INT_MAX + 1)
  {
    CopyTurnsLeft(capacity, turns, 2 * capacity + 2);
  }

  // and a copy to user space that fails removes nothing.
  lemma FailedCopyRemovesNothing(capacity: nat, turns: seq<Turn>)
    ensures Play(capacity, turns + [PasteTurn(false)]).Removed() == Play(capacity, turns).Removed()
  {
    PlayMore(capacity, turns, PasteTurn(false));
  }

  method TakeTurns(board: Clipboard, turns: seq<Turn>) returns (fault: bool, expectValue: int)
    requires board.Valid() && board.Items == []
    modifies board, board.Ring
    ensures board.Valid()
    ensures var l := Play(board.Ring.Length, turns);
            && !fault && expectValue == Counter(l.compared)
            && board.Items == Consecutive(l.Removed(), l.accepted)
  {
    var value, stored := 0, false;
    var clipBoardValue, fetched := 0, false;
    expectValue, fault := 0, false;
    for i := 0 to |turns|
      invariant board.Valid()
      invariant var l := Play(board.Ring.Length, turns[..i]);
                && stored == l.stored && fetched == l.fetched
                && (if stored then l.accepted > 0 && value == l.accepted - 1 else value == Counter(l.accepted))
                && expectValue == Counter(l.compared) && (fetched ==> clipBoardValue == l.compared)
                && board.Items == Consecutive(l.Removed(), l.accepted)
    {
      ghost var l := Play(board.Ring.Length, turns[..i]);
      assert turns[..i + 1][..i] == turns[..i];
      ConsecutiveGrows(l.Removed(), l.accepted);
      if turns[i].CopyTurn? {
        if stored {
          value, stored := Increment(value), false;
        } else {
          var r := board.Enqueue(value);
          stored := r == 0;
        }
      } else if fetched {
        if clipBoardValue != expectValue {
          fault := true;
          return;
        }
        expectValue, fetched := Increment(expectValue), false;
      } else {
        var r, v := board.Dequeue(turns[i].copied);
        if r == 0 {
          clipBoardValue, fetched := v, true;
        }
      }
    }
    assert turns[..|turns|] == turns;
  }
}
