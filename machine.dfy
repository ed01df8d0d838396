/**
 * The fixed configuration of the slot machine: its dimensions, the betting
 * limits, the reel symbols, how many copies of each symbol a reel holds and
 * what each symbol pays per unit bet.
 */
module Machine {

  const MAX_LINES: int := 3
  const MAX_BET: int := 100
  const MIN_BET: int := 1
  const ROWS: int := 3
  const COLS: int := 3

  /** How many times `range(n)` iterates. */
  function Max0(n: int): nat {
    if n < 0 then 0 else n
  }

  datatype Symbol = A | B | C | D

  /** One column of a spin, read top to bottom. */
  type Column = seq<Symbol>

  /** A spin is a list of columns; column j, row i is `grid[j][i]`. */
  type Grid = seq<Column>

  /**
   * How many copies of each symbol one reel holds, in the table's own
   * order (the order in which the bag of symbols is filled).
   */
  const SymbolCount: seq<(Symbol, int)> := [(A, 2), (B, 4), (C, 6), (D, 8)]

  /** The payout multiplier of each symbol. */
  const SymbolValues: map<Symbol, int> := map[A := 5, B := 4, C := 3, D := 2]

  /** Every symbol has a payout, and none is negative. */
  lemma SymbolValuesTotal(s: Symbol)
    ensures s in SymbolValues && SymbolValues[s] > 0
  {
  }

  /** No payout is negative, and none exceeds that of A. */
  lemma SymbolValuesBounded()
    ensures forall s :: s in SymbolValues ==> 0 <= SymbolValues[s] <= SymbolValues[A] == 5
  {
  }
}
