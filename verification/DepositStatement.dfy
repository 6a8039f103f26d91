/** The listing of a deposit account: newest entry first, each with the balance it left. */
module DepositStatement {
  import opened Options
  import opened Sums
  import opened CardState
  import opened CardInvariants
  import opened CardPreservation

  datatype Line = Line(amount: int, direction: Direction, pending: bool)

  /** What an entry adds to the cleared balance; a pending one adds nothing yet. */
  function Signed(l: Line): int {
    if l.pending then 0 else if l.direction == Credit then l.amount else -l.amount
  }

  /** The balances left by posting `lines`, oldest first, on an account that opened with `opening`. */
  function Posted(opening: int, lines: seq<Line>): (r: seq<int>)
    ensures |r| == |lines|
    decreases |lines|
  {
    if lines == [] then [] else [opening + Signed(lines[0])] + Posted(opening + Signed(lines[0]), lines[1..])
  }

  function Closing(opening: int, lines: seq<Line>): int
    decreases |lines|
  {
    if lines == [] then opening else Closing(opening + Signed(lines[0]), lines[1..])
  }

  function Reversed<T>(s: seq<T>): (r: seq<T>)
    ensures |r| == |s|
    ensures forall i :: 0 <= i < |s| ==> r[i] == s[|s| - 1 - i]
  {
    if s == [] then [] else [s[|s| - 1]] + Reversed(s[..|s| - 1])
  }

  lemma {:induction false} PostedLast(opening: int, lines: seq<Line>, l: Line)
    ensures Posted(opening, lines + [l]) == Posted(opening, lines) + [Closing(opening, lines) + Signed(l)]
    ensures Closing(opening, lines + [l]) == Closing(opening, lines) + Signed(l)
    decreases |lines|
  {
    if lines != [] {
      assert (lines + [l])[1..] == lines[1..] + [l];
      PostedLast(opening + Signed(lines[0]), lines[1..], l);
    }
  }

  /** The balances before each undoing, newest entry first, and the one left at the end. */
  function Undone(current: int, newestFirst: seq<Line>): (r: seq<int>)
    ensures |r| == |newestFirst|
    decreases |newestFirst|
  {
    if newestFirst == [] then [] else [current] + Undone(current - Signed(newestFirst[0]), newestFirst[1..])
  }

  function Opening(current: int, newestFirst: seq<Line>): int
    decreases |newestFirst|
  {
    if newestFirst == [] then current else Opening(current - Signed(newestFirst[0]), newestFirst[1..])
  }

  lemma ReversedTail<T>(s: seq<T>)
    requires s != []
    ensures Reversed(s) == Reversed(s[1..]) + [s[0]]
  {
  }

  lemma ReversedAppend<T>(s: seq<T>, x: T)
    ensures Reversed(s + [x]) == [x] + Reversed(s)
  {
  }

  /** Undoing newest first is the inverse of posting oldest first: it ends with the
      opening balance and passes, line by line, the balances posting had left. */
  lemma {:induction false} UndoingInvertsPosting(current: int, newestFirst: seq<Line>)
    ensures var opening := Opening(current, newestFirst);
      && Closing(opening, Reversed(newestFirst)) == current
      && Reversed(Posted(opening, Reversed(newestFirst))) == Undone(current, newestFirst)
    decreases |newestFirst|
  {
    if newestFirst != [] {
      var newest, older := newestFirst[0], newestFirst[1..];
      hide Reversed, Posted, Signed;
      UndoingInvertsPosting(current - Signed(newest), older);
      var opening := Opening(current, newestFirst);
      ReversedTail(newestFirst);
      PostedLast(opening, Reversed(older), newest);
      ReversedAppend(Posted(opening, Reversed(older)), current);
    }
  }

  /** Posting is recovered for any account: whatever it opened with and whatever was
      posted, undoing from its closing balance returns the opening balance. */
  lemma PostingIsUndone(opening: int, oldestFirst: seq<Line>)
    ensures Opening(Closing(opening, oldestFirst), Reversed(oldestFirst)) == opening
    ensures Undone(Closing(opening, oldestFirst), Reversed(oldestFirst)) == Reversed(Posted(opening, oldestFirst))
  {
    var current := Closing(opening, oldestFirst);
    var newestFirst := Reversed(oldestFirst);
    UndoingInvertsPosting(current, newestFirst);
    assert Reversed(newestFirst) == oldestFirst;
    ClosingIsSum(opening, oldestFirst);
    ClosingIsSum(Opening(current, newestFirst), oldestFirst);
  }

  /** Cleared amounts in and out. */
  function In(): Line -> int {
    (l: Line) => if !l.pending && l.direction == Credit then l.amount else 0
  }

  function Out(): Line -> int {
    (l: Line) => if !l.pending && l.direction == Debit then l.amount else 0
  }

  /** The balance beside a line: the present one, less what newer lines brought in, plus what
      they took out; pending lines count for nothing. */
  lemma {:induction false} ListedAt(current: int, newestFirst: seq<Line>, k: nat)
    requires k < |newestFirst|
    ensures Undone(current, newestFirst)[k] == current - Sum(newestFirst[..k], In()) + Sum(newestFirst[..k], Out())
  {
    if k > 0 {
      ListedAt(current, newestFirst, k - 1);
      UndoneStep(current, newestFirst, k - 1);
      SumStep(newestFirst, k - 1, In());
      SumStep(newestFirst, k - 1, Out());
    }
  }

  lemma {:induction false} UndoneStep(current: int, newestFirst: seq<Line>, k: nat)
    requires k + 1 < |newestFirst|
    ensures Undone(current, newestFirst)[k + 1] == Undone(current, newestFirst)[k] - Signed(newestFirst[k])
    decreases k
  {
    if k > 0 {
      UndoneStep(current - Signed(newestFirst[0]), newestFirst[1..], k - 1);
    }
  }

  /** Lists the balances newest first; fails where an amount or a balance is no `Money`. */
  method ListBalances(current: int, newestFirst: seq<Line>) returns (balances: Option<seq<int>>)
    ensures balances.Some? <==>
      forall k :: 0 <= k < |newestFirst| ==> IsMoney(newestFirst[k].amount) && IsMoney(Undone(current, newestFirst)[k])
    ensures balances.Some? ==>
      balances.value == Reversed(Posted(Opening(current, newestFirst), Reversed(newestFirst)))
    ensures balances.Some? ==>
      && |balances.value| == |newestFirst|
      && forall k :: 0 <= k < |newestFirst| ==>
           balances.value[k] == current - Sum(newestFirst[..k], In()) + Sum(newestFirst[..k], Out())
  {
    var listed := [];
    var running := current;
    for k := 0 to |newestFirst|
      invariant |listed| == k
      invariant forall j :: 0 <= j < k ==> IsMoney(newestFirst[j].amount) && IsMoney(listed[j])
      invariant Undone(current, newestFirst) == listed + Undone(running, newestFirst[k..])
    {
      var l := newestFirst[k];
      assert newestFirst[k..][0] == l && newestFirst[k..][1..] == newestFirst[k + 1..];
      if !IsMoney(l.amount) || !IsMoney(running) {
        assert Undone(current, newestFirst)[k] == running;
        return None;
      }
      listed := listed + [running];
      if !l.pending {
        running := running - if l.direction == Credit then l.amount else -l.amount;
      }
    }
    UndoingInvertsPosting(current, newestFirst);
    assert Undone(current, newestFirst) == listed;
    forall k | 0 <= k < |newestFirst|
      ensures listed[k] == current - Sum(newestFirst[..k], In()) + Sum(newestFirst[..k], Out())
    {
      ListedAt(current, newestFirst, k);
    }
    return Some(listed);
  }

  // -------------------------------------------- listings of the card ledger

  /** The entries of a transaction that touch the account, as listed lines. */
  function LinesOf(entries: seq<Entry>, id: LedgerId): seq<Line> {
    if entries == [] then [] else
      var n := |entries| - 1;
      LinesOf(entries[..n], id)
      + (if entries[n].account == id then [Line(entries[n].amount, entries[n].direction, false)] else [])
  }

  function Statement(journal: seq<Transaction>, id: LedgerId): seq<Line> {
    if journal == [] then [] else Statement(journal[..|journal| - 1], id) + LinesOf(journal[|journal| - 1].entries, id)
  }

  lemma {:induction false} LinesNet(entries: seq<Entry>, id: LedgerId)
    ensures Sum(LinesOf(entries, id), Signed) == Sum(entries, SignedFor(id))
  {
    if entries != [] {
      var n := |entries| - 1;
      LinesNet(entries[..n], id);
      if entries[n].account == id {
        SumAppend(LinesOf(entries[..n], id), Line(entries[n].amount, entries[n].direction, false), Signed);
      } else {
        assert LinesOf(entries, id) == LinesOf(entries[..n], id);
      }
    }
  }

  lemma {:induction false} StatementNet(journal: seq<Transaction>, id: LedgerId)
    ensures Sum(Statement(journal, id), Signed) == NetCredit(journal, id)
  {
    if journal != [] {
      var n := |journal| - 1;
      StatementNet(journal[..n], id);
      LinesNet(journal[n].entries, id);
      SumConcat(Statement(journal[..n], id), LinesOf(journal[n].entries, id), Signed);
    }
  }

  lemma {:induction false} ClosingIsSum(opening: int, lines: seq<Line>)
    ensures Closing(opening, lines) == opening + Sum(lines, Signed)
  {
    if lines != [] {
      var n := |lines| - 1;
      ClosingIsSum(opening, lines[..n]);
      assert lines == lines[..n] + [lines[n]];
      PostedLast(opening, lines[..n], lines[n]);
    }
  }

  /** In every reachable state a deposit's journal entries, posted from an empty account,
      close with its cached balance: undoing all of them leads back to zero. */
  lemma DepositsOpenEmpty(s: State, number: nat)
    requires Reachable(s) && Deposit(number) in s.ledger
    ensures var lines := Statement(s.journal, Deposit(number)); var cleared := s.ledger[Deposit(number)].cleared;
      && Closing(0, lines) == cleared
      && forall opening :: Closing(opening, lines) == cleared ==> opening == 0
  {
    hide HoldsOk, CreditOk, JournalOk, StatementsOk, Statement, Reachable;
    ReachableValid(s);
    var id := Deposit(number);
    assert BalanceOk(s, id);
    StatementNet(s.journal, id);
    forall opening ensures Closing(opening, Statement(s.journal, id)) == opening + s.ledger[id].cleared {
      ClosingIsSum(opening, Statement(s.journal, id));
    }
  }
}
