/**
 * Payout evaluation: which of the bet-on rows of a spin win, and how much
 * they pay.
 */
module Payout {
  import opened Machine

  /**
   * Every column is long enough to be read at rows 0 .. n-1, and there is a
   * first column to take each row's candidate symbol from. Betting on no
   * lines reads nothing.
   */
  predicate Covers(grid: Grid, n: int) {
    n <= 0 || (|grid| > 0 && forall j :: 0 <= j < |grid| ==> n <= |grid[j]|)
  }

  /** Row `i` holds the same symbol in every column. */
  predicate RowUniform(grid: Grid, i: nat)
    requires Covers(grid, i + 1)
  {
    forall j :: 0 <= j < |grid| ==> grid[j][i] == grid[0][i]
  }

  /** Every winning row among the first `n` has a payout in `values`. */
  predicate Priced(grid: Grid, n: int, values: map<Symbol, int>)
    requires Covers(grid, n)
  {
    forall i: nat :: i < n && RowUniform(grid, i) ==> grid[0][i] in values
  }

  /** Coverage and pricing of `n` rows carry over to any shorter prefix. */
  lemma PricedPrefix(grid: Grid, m: int, n: int, values: map<Symbol, int>)
    requires m <= n || m <= 0
    requires Covers(grid, n) && Priced(grid, n, values)
    ensures Covers(grid, m) && Priced(grid, m, values)
  {
    assert Covers(grid, m);
    forall i: nat | i < m && RowUniform(grid, i)
      ensures grid[0][i] in values
    {
    }
  }

  /** The 1-based numbers of the winning rows among the first `n`, in order. */
  function WinningLines(grid: Grid, n: int): seq<int>
    requires Covers(grid, n)
    decreases n
  {
    if n <= 0 then []
    else WinningLines(grid, n - 1) + (if RowUniform(grid, n - 1) then [n] else [])
  }

  /** What a winning row `i` pays: its symbol's value times the bet per line. */
  function LinePay(grid: Grid, i: nat, bet: int, values: map<Symbol, int>): int
    requires Covers(grid, i + 1) && grid[0][i] in values
  {
    values[grid[0][i]] * bet
  }

  /** The total paid by the winning rows among the first `n`. */
  function Winnings(grid: Grid, n: int, bet: int, values: map<Symbol, int>): int
    requires Covers(grid, n) && Priced(grid, n, values)
    decreases n
  {
    if n <= 0 then 0
    else Winnings(grid, n - 1, bet, values)
         + (if RowUniform(grid, n - 1) then LinePay(grid, n - 1, bet, values) else 0)
  }

  /**
   * `check_winnings`: for each of the first `lines` rows, compare every
   * column with the first one at that row; a row that matches throughout
   * adds its pay to the total and its 1-based number to the list.
   */
  method CheckWinnings(grid: Grid, lines: int, bet: int, values: map<Symbol, int>)
    returns (winnings: int, winningLines: seq<int>)
    requires Covers(grid, lines) && Priced(grid, lines, values)
    ensures winnings == Winnings(grid, lines, bet, values)
    ensures winningLines == WinningLines(grid, lines)
  {
    winnings, winningLines := 0, [];
    var line := 0;
    PricedPrefix(grid, 0, lines, values);
    while line < lines
      invariant 0 <= line && (line <= lines || line == 0)
      invariant Covers(grid, line) && Priced(grid, line, values)
      invariant winnings == Winnings(grid, line, bet, values)
      invariant winningLines == WinningLines(grid, line)
    {
      var symbol := grid[0][line];
      var matched := true;
      for j := 0 to |grid|
        invariant forall k :: 0 <= k < j ==> grid[k][line] == symbol
      {
        if symbol != grid[j][line] {
          matched := false;
          break;
        }
      }
      assert matched == RowUniform(grid, line);
      if matched {
        winnings := winnings + values[symbol] * bet;
        winningLines := winningLines + [line + 1];
      }
      line := line + 1;
      PricedPrefix(grid, line, lines, values);
    }
  }

  /**
   * The reported lines are strictly increasing, each lies in 1..n, and the
   * number i+1 is reported exactly when row i is uniform.
   */
  lemma WinningLinesExact(grid: Grid, n: int)
    requires Covers(grid, n)
    ensures forall k, m :: 0 <= k < m < |WinningLines(grid, n)| ==>
      WinningLines(grid, n)[k] < WinningLines(grid, n)[m]
    ensures forall k :: 0 <= k < |WinningLines(grid, n)| ==> 1 <= WinningLines(grid, n)[k] <= n
    ensures forall i: nat :: i < n ==> (i + 1 in WinningLines(grid, n) <==> RowUniform(grid, i))
  {
    WinningLinesIncreasing(grid, n);
    WinningLinesBounded(grid, n);
    WinningLinesMembers(grid, n);
  }

  /** The reported lines are strictly increasing. */
  lemma {:induction false} WinningLinesIncreasing(grid: Grid, n: int)
    requires Covers(grid, n)
    ensures forall k, m :: 0 <= k < m < |WinningLines(grid, n)| ==>
      WinningLines(grid, n)[k] < WinningLines(grid, n)[m]
    decreases n
  {
    if n > 0 {
      WinningLinesIncreasing(grid, n - 1);
      WinningLinesBounded(grid, n - 1);
    }
  }

  /** The number i+1 is reported exactly when row i is uniform. */
  lemma {:induction false} WinningLinesMembers(grid: Grid, n: int)
    requires Covers(grid, n)
    ensures forall i: nat :: i < n ==> (i + 1 in WinningLines(grid, n) <==> RowUniform(grid, i))
    decreases n
  {
    if n > 0 {
      WinningLinesMembers(grid, n - 1);
      WinningLinesBounded(grid, n - 1);
      assert n !in WinningLines(grid, n - 1);
    }
  }

  /** Every row among the first `n` has a payout for its first column's symbol. */
  predicate AllPriced(grid: Grid, n: int, values: map<Symbol, int>)
    requires Covers(grid, n)
  {
    forall i: nat :: i < n ==> grid[0][i] in values
  }

  /** The pay of a list of 1-based line numbers, added up. */
  function PayOf(grid: Grid, n: int, ls: seq<int>, bet: int, values: map<Symbol, int>): int
    requires Covers(grid, n) && AllPriced(grid, n, values)
    requires forall k :: 0 <= k < |ls| ==> 1 <= ls[k] <= n
  {
    if ls == [] then 0
    else PayOf(grid, n, ls[..|ls| - 1], bet, values) + LinePay(grid, ls[|ls| - 1] - 1, bet, values)
  }

  /**
   * The total is the pay of the reported lines added up: a row that is not
   * reported pays nothing, and every reported row pays once.
   */
  lemma {:induction false} WinningsArePayOfWinningLines(grid: Grid, n: int, bet: int, values: map<Symbol, int>)
    requires Covers(grid, n) && AllPriced(grid, n, values)
    ensures Priced(grid, n, values)
    ensures forall k :: 0 <= k < |WinningLines(grid, n)| ==> 1 <= WinningLines(grid, n)[k] <= n
    ensures Winnings(grid, n, bet, values) == PayOf(grid, n, WinningLines(grid, n), bet, values)
    decreases n
  {
    WinningLinesBounded(grid, n);
    if n > 0 {
      var m := n - 1;
      assert Covers(grid, m) && AllPriced(grid, m, values);
      WinningsArePayOfWinningLines(grid, m, bet, values);
      var prev := WinningLines(grid, m);
      PayOfWider(grid, m, n, prev, bet, values);
      if RowUniform(grid, m) {
        assert WinningLines(grid, n) == prev + [n];
        PayOfSnoc(grid, n, prev, n, bet, values);
      } else {
        assert WinningLines(grid, n) == prev;
      }
    }
  }

  /** Appending a line to a list adds that line's pay. */
  lemma PayOfSnoc(grid: Grid, n: int, ls: seq<int>, x: int, bet: int, values: map<Symbol, int>)
    requires Covers(grid, n) && AllPriced(grid, n, values)
    requires forall k :: 0 <= k < |ls| ==> 1 <= ls[k] <= n
    requires 1 <= x <= n
    ensures PayOf(grid, n, ls + [x], bet, values)
      == PayOf(grid, n, ls, bet, values) + LinePay(grid, x - 1, bet, values)
  {
    var l := ls + [x];
    assert l[..|l| - 1] == ls;
  }

  /** Every reported line number lies in 1..n. */
  lemma {:induction false} WinningLinesBounded(grid: Grid, n: int)
    requires Covers(grid, n)
    ensures forall k :: 0 <= k < |WinningLines(grid, n)| ==> 1 <= WinningLines(grid, n)[k] <= n
    decreases n
  {
    if n > 0 {
      WinningLinesBounded(grid, n - 1);
    }
  }

  /** The pay of a list of lines does not depend on the bound it is checked against. */
  lemma {:induction false} PayOfWider(grid: Grid, m: int, n: int, ls: seq<int>, bet: int, values: map<Symbol, int>)
    requires m <= n && Covers(grid, n) && AllPriced(grid, n, values)
    requires Covers(grid, m) && AllPriced(grid, m, values)
    requires forall k :: 0 <= k < |ls| ==> 1 <= ls[k] <= m
    ensures PayOf(grid, m, ls, bet, values) == PayOf(grid, n, ls, bet, values)
    decreases |ls|
  {
    if ls != [] {
      PayOfWider(grid, m, n, ls[..|ls| - 1], bet, values);
    }
  }

  /** When no bet-on row is uniform, nothing is won and no line is reported. */
  lemma {:induction false} NoWinMeansZero(grid: Grid, n: int, bet: int, values: map<Symbol, int>)
    requires Covers(grid, n) && Priced(grid, n, values)
    requires forall i: nat :: i < n ==> !RowUniform(grid, i)
    ensures Winnings(grid, n, bet, values) == 0 && WinningLines(grid, n) == []
    decreases n
  {
    if n > 0 {
      NoWinMeansZero(grid, n - 1, bet, values);
    }
  }

  /** With a non-negative bet and non-negative payouts, the total is non-negative. */
  lemma {:induction false} WinningsNonNegative(grid: Grid, n: int, bet: int, values: map<Symbol, int>)
    requires Covers(grid, n) && Priced(grid, n, values)
    requires bet >= 0 && forall s :: s in values ==> values[s] >= 0
    ensures Winnings(grid, n, bet, values) >= 0
    decreases n
  {
    if n > 0 {
      WinningsNonNegative(grid, n - 1, bet, values);
    }
  }

  /** With payouts of at most `top`, the total is at most `top` times the bet on every line. */
  lemma {:induction false} WinningsAtMost(grid: Grid, n: int, bet: int, values: map<Symbol, int>, top: int)
    requires Covers(grid, n) && Priced(grid, n, values)
    requires bet >= 0 && top >= 0 && forall s :: s in values ==> values[s] <= top
    ensures Winnings(grid, n, bet, values) <= Max0(n) * (top * bet)
    decreases n
  {
    if n > 0 {
      PricedPrefix(grid, n - 1, n, values);
      WinningsAtMost(grid, n - 1, bet, values, top);
      if RowUniform(grid, n - 1) {
        var v := values[grid[0][n - 1]];
        assert v * bet <= top * bet by {
          MulMonotone(v, top, bet);
        }
      }
      var k := top * bet;
      assert Max0(n - 1) * k + k == Max0(n) * k by {
        assert Max0(n) == Max0(n - 1) + 1;
      }
    }
  }

  lemma MulMonotone(a: int, b: int, k: int)
    requires a <= b && k >= 0
    ensures a * k <= b * k
  {
    assert b * k - a * k == (b - a) * k;
  }

  /** Two grids with the same columns on rows 0 .. n-1. */
  predicate SameRows(grid: Grid, other: Grid, n: int)
    requires Covers(grid, n) && Covers(other, n)
  {
    |grid| == |other| && forall j, i :: 0 <= j < |grid| && 0 <= i < n ==> grid[j][i] == other[j][i]
  }

  /** Rows at index `n` or beyond never affect either result. */
  lemma {:induction false} RowsBeyondBetIgnored(grid: Grid, other: Grid, n: int, bet: int, values: map<Symbol, int>)
    requires Covers(grid, n) && Covers(other, n) && SameRows(grid, other, n)
    requires Priced(grid, n, values)
    ensures Priced(other, n, values)
    ensures WinningLines(grid, n) == WinningLines(other, n)
    ensures Winnings(grid, n, bet, values) == Winnings(other, n, bet, values)
    decreases n
  {
    if n > 0 {
      assert Covers(grid, n - 1) && Covers(other, n - 1);
      assert SameRows(grid, other, n - 1);
      assert forall i: nat :: i < n ==> RowUniform(grid, i) == RowUniform(other, i);
      RowsBeyondBetIgnored(grid, other, n - 1, bet, values);
    }
  }

  /**
   * A worked example: rows A A A, B C B and D D D with the game's payouts
   * and a bet of 2 per line. On three lines, lines 1 and 3 win 5*2 + 2*2;
   * on one line only row 1 is looked at.
   */
  lemma WorkedExample()
    ensures Covers([[A, B, D], [A, C, D], [A, B, D]], 3)
    ensures WinningLines([[A, B, D], [A, C, D], [A, B, D]], 3) == [1, 3]
    ensures Winnings([[A, B, D], [A, C, D], [A, B, D]], 3, 2, SymbolValues) == 14
    ensures WinningLines([[A, B, D], [A, C, D], [A, B, D]], 1) == [1]
    ensures Winnings([[A, B, D], [A, C, D], [A, B, D]], 1, 2, SymbolValues) == 10
  {
    var g := [[A, B, D], [A, C, D], [A, B, D]];
    assert RowUniform(g, 0) && RowUniform(g, 2);
    assert g[1][1] != g[0][1];
  }
}
