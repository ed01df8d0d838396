/**
 * One round of play and the session loop: the stake is checked against the
 * balance before the reels are spun, and the balance moves by what the
 * round returns.
 */
module Session {
  import opened Wrappers
  import opened Machine
  import Payout
  import Reels

  /** Line count and bet as the two prompts hand them to a round. */
  predicate BetAccepted(lines: int, bet: int) {
    1 <= lines <= MAX_LINES && MIN_BET <= bet <= MAX_BET
  }

  /** Random choices for one spin of the game's own machine. */
  predicate ChoicesFit(picks: seq<seq<nat>>) {
    Reels.PicksFor(picks, ROWS, COLS)
  }

  /** The game's reels hold 20 symbols: 2 A, 4 B, 6 C and 8 D. */
  lemma MachineBag()
    ensures Reels.TotalCount(SymbolCount) == 20
    ensures Reels.CountIn(SymbolCount, A) == 2 && Reels.CountIn(SymbolCount, B) == 4
    ensures Reels.CountIn(SymbolCount, C) == 6 && Reels.CountIn(SymbolCount, D) == 8
  {
    var t1, t2, t3 := [(A, 2)], [(A, 2), (B, 4)], [(A, 2), (B, 4), (C, 6)];
    assert SymbolCount[..3] == t3 && t3[..2] == t2 && t2[..1] == t1 && t1[..0] == [];
    assert Reels.TotalCount(t1) == 2 && Reels.TotalCount(t2) == 6 && Reels.TotalCount(t3) == 12;
    assert Reels.CountIn(t3, A) == 2 && Reels.CountIn(t3, B) == 4 && Reels.CountIn(t3, C) == 6;
    assert Reels.CountIn(t3, D) == 0;
  }

  /** The grid a spin of the game's machine shows for the given choices. */
  function SpinGrid(picks: seq<seq<nat>>): (grid: Grid)
    requires ChoicesFit(picks)
    ensures Reels.GridShaped(grid, ROWS, COLS)
    ensures Reels.Reels(Reels.BagOf(SymbolCount), picks) == Ok(grid)
  {
    MachineBag();
    Reels.SpinShape(ROWS, COLS, SymbolCount, picks);
    Reels.Reels(Reels.BagOf(SymbolCount), picks).value
  }

  /** A grid of the game's machine can be evaluated on up to MAX_LINES lines. */
  lemma GridEvaluable(grid: Grid, lines: int)
    requires Reels.GridShaped(grid, ROWS, COLS) && lines <= MAX_LINES
    ensures Payout.Covers(grid, lines) && Payout.Priced(grid, lines, SymbolValues)
  {
    forall s: Symbol {
      SymbolValuesTotal(s);
    }
  }

  /**
   * What `spin` returns: nothing when the stake exceeds the balance,
   * otherwise the winnings minus the stake.
   */
  function NetChange(balance: int, lines: int, bet: int, picks: seq<seq<nat>>): int
    requires BetAccepted(lines, bet) && ChoicesFit(picks)
  {
    var totalBet := bet * lines;
    if totalBet > balance then 0
    else
      var grid := SpinGrid(picks);
      GridEvaluable(grid, lines);
      Payout.Winnings(grid, lines, bet, SymbolValues) - totalBet
  }

  /** A round whose stake exceeds the balance returns nothing. */
  lemma NetChangeAborted(balance: int, lines: int, bet: int, picks: seq<seq<nat>>)
    requires BetAccepted(lines, bet) && ChoicesFit(picks) && bet * lines > balance
    ensures NetChange(balance, lines, bet, picks) == 0
  {
  }

  /** A round that is not aborted returns its winnings minus its stake. */
  lemma NetChangeCompleted(balance: int, lines: int, bet: int, picks: seq<seq<nat>>)
    requires BetAccepted(lines, bet) && ChoicesFit(picks) && bet * lines <= balance
    ensures Payout.Covers(SpinGrid(picks), lines) && Payout.Priced(SpinGrid(picks), lines, SymbolValues)
    ensures NetChange(balance, lines, bet, picks)
      == Payout.Winnings(SpinGrid(picks), lines, bet, SymbolValues) - bet * lines
  {
    GridEvaluable(SpinGrid(picks), lines);
  }

  /**
   * The part of `spin` after the funds check: spin the game's reels,
   * evaluate the grid and return the winnings minus the stake.
   */
  method PlayReels(lines: int, bet: int, picks: seq<seq<nat>>) returns (net: int, grid: Grid)
    requires BetAccepted(lines, bet) && ChoicesFit(picks)
    ensures grid == SpinGrid(picks)
    ensures Payout.Covers(grid, lines) && Payout.Priced(grid, lines, SymbolValues)
    ensures net == Payout.Winnings(grid, lines, bet, SymbolValues) - bet * lines
  {
    var totalBet := bet * lines;
    MachineBag();
    var slots := Reels.GetSlotMachineSpin(ROWS, COLS, SymbolCount, picks);
    grid := slots.value;
    GridEvaluable(grid, lines);
    var winnings, winningLines := Payout.CheckWinnings(grid, lines, bet, SymbolValues);
    // The source also lowers and raises its local copy of the balance here;
    // the caller's balance changes only through the value returned.
    net := winnings - totalBet;
  }

  /**
   * `spin`: compute the stake; if it exceeds the balance, return 0 without
   * spinning; otherwise spin, evaluate the grid and return the winnings
   * minus the stake. `reels` is the grid the round shows, if it spun.
   */
  method Spin(balance: int, lines: int, bet: int, picks: seq<seq<nat>>)
    returns (net: int, reels: Option<Grid>)
    requires BetAccepted(lines, bet) && ChoicesFit(picks)
    ensures net == NetChange(balance, lines, bet, picks)
    ensures reels.None? <==> bet * lines > balance
    ensures reels.Some? ==> reels.value == SpinGrid(picks)
  {
    var totalBet := bet * lines;
    if totalBet > balance {
      NetChangeAborted(balance, lines, bet, picks);
      return 0, None;
    }
    var grid;
    net, grid := PlayReels(lines, bet, picks);
    NetChangeCompleted(balance, lines, bet, picks);
    reels := Some(grid);
  }

  /**
   * The balance law of one round: an aborted round changes nothing; a
   * completed one moves the balance by the winnings minus the stake, loses
   * at most the stake, wins at most the top payout on every line, and never
   * leaves a non-negative balance negative.
   */
  lemma {:induction false} RoundLaw(balance: int, lines: int, bet: int, picks: seq<seq<nat>>)
    requires BetAccepted(lines, bet) && ChoicesFit(picks)
    ensures bet * lines <= balance ==>
      -(bet * lines) <= NetChange(balance, lines, bet, picks) <= (5 - 1) * (bet * lines)
    ensures balance >= 0 ==> balance + NetChange(balance, lines, bet, picks) >= 0
  {
    var stake := bet * lines;
    if stake > balance {
      NetChangeAborted(balance, lines, bet, picks);
    } else {
      NetChangeCompleted(balance, lines, bet, picks);
      var grid := SpinGrid(picks);
      SymbolValuesBounded();
      Payout.WinningsNonNegative(grid, lines, bet, SymbolValues);
      Payout.WinningsAtMost(grid, lines, bet, SymbolValues, 5);
      TopStake(lines, bet);
    }
  }

  lemma TopStake(lines: int, bet: int)
    requires lines >= 0
    ensures Max0(lines) * (5 * bet) == 5 * (bet * lines)
  {
  }

  /** The insufficient-funds example: a stake of 6 against a balance of 5. */
  lemma InsufficientFunds(picks: seq<seq<nat>>)
    requires ChoicesFit(picks)
    ensures NetChange(5, 2, 3, picks) == 0
  {
  }

  /** One press of enter: the answer, then the line count, bet and choices of that round. */
  datatype Round = Round(answer: string, lines: int, bet: int, picks: seq<seq<nat>>)

  predicate RoundFits(r: Round) {
    BetAccepted(r.lines, r.bet) && ChoicesFit(r.picks)
  }

  predicate RoundsFit(rounds: seq<Round>) {
    forall i :: 0 <= i < |rounds| ==> RoundFits(rounds[i])
  }

  /** The balance after playing round `r` from `balance`. */
  function Next(balance: int, r: Round): int
    requires RoundFits(r)
  {
    balance + NetChange(balance, r.lines, r.bet, r.picks)
  }

  /** A round played from a non-negative balance leaves it non-negative. */
  lemma NextNonNegative(balance: int, r: Round)
    requires balance >= 0 && RoundFits(r)
    ensures Next(balance, r) >= 0
  {
    RoundLaw(balance, r.lines, r.bet, r.picks);
  }

  /** Every suffix of a list of valid rounds is valid. */
  lemma RoundsFitSuffix(rounds: seq<Round>, i: nat)
    requires RoundsFit(rounds) && i < |rounds|
    ensures RoundFits(rounds[i]) && RoundsFit(rounds[i..]) && RoundsFit(rounds[i + 1..])
  {
    forall j | 0 <= j < |rounds| - i
      ensures RoundFits(rounds[i..][j])
    {
      assert rounds[i..][j] == rounds[i + j];
    }
    var k := i + 1;
    forall j | 0 <= j < |rounds| - k
      ensures RoundFits(rounds[k..][j])
    {
      assert rounds[k..][j] == rounds[k + j];
    }
  }

  /** The balance the session ends with: rounds are played until the answer is "q". */
  function FinalBalance(balance: int, rounds: seq<Round>): int
    requires RoundsFit(rounds)
    decreases |rounds|
  {
    if rounds == [] || rounds[0].answer == "q" then balance
    else
      RoundsFitSuffix(rounds, 0);
      FinalBalance(Next(balance, rounds[0]), rounds[1..])
  }

  /** One step of the session loop: a "q" ends it, any other answer plays a round. */
  lemma FinalBalanceStep(balance: int, rounds: seq<Round>, i: nat)
    requires RoundsFit(rounds) && i < |rounds|
    ensures RoundFits(rounds[i]) && RoundsFit(rounds[i..]) && RoundsFit(rounds[i + 1..])
    ensures FinalBalance(balance, rounds[i..])
      == if rounds[i].answer == "q" then balance
         else FinalBalance(Next(balance, rounds[i]), rounds[i + 1..])
  {
    RoundsFitSuffix(rounds, i);
    assert rounds[i..][0] == rounds[i];
    assert rounds[i..][1..] == rounds[i + 1..];
  }

  /** From a non-negative start, the balance never goes negative. */
  lemma {:induction false} FinalBalanceNonNegative(balance: int, rounds: seq<Round>)
    requires balance >= 0
    requires RoundsFit(rounds)
    ensures FinalBalance(balance, rounds) >= 0
    decreases |rounds|
  {
    if rounds != [] && rounds[0].answer != "q" {
      RoundsFitSuffix(rounds, 0);
      NextNonNegative(balance, rounds[0]);
      FinalBalanceNonNegative(Next(balance, rounds[0]), rounds[1..]);
    }
  }

  /**
   * `main`: start from the deposit, then until the answer is "q" add what
   * each round returns to the balance. The balance ends where the rounds
   * take it and is never negative.
   */
  method Play(deposit: int, rounds: seq<Round>) returns (balance: int)
    requires deposit > 0
    requires RoundsFit(rounds)
    ensures balance == FinalBalance(deposit, rounds)
    ensures balance >= 0
  {
    balance := deposit;
    var i := 0;
    while i < |rounds|
      invariant 0 <= i <= |rounds|
      invariant balance >= 0
      invariant FinalBalance(balance, rounds[i..]) == FinalBalance(deposit, rounds)
    {
      var r := rounds[i];
      if r.answer == "q" {
        FinalBalanceStep(balance, rounds, i);
        break;
      }
      var net, _ := Spin(balance, r.lines, r.bet, r.picks);
      FinalBalanceStep(balance, rounds, i);
      NextNonNegative(balance, r);
      balance := balance + net;
      i := i + 1;
    }
  }
}
