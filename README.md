# Slot machine engine, modelled in Dafny

This project models the engine of a small text-mode slot machine (`main.py`) with its
terminal input and output taken out. A player deposits money. Each round, they bet on
1 to 3 lines at 1 to 100 per line. The game spins a 3×3 grid of symbols A, B, C, D and
pays every bet-on row that shows the same symbol across all three columns. The money
won or lost goes into the balance.

Modules, one per part of the engine (the `.dfy` files form one program):

- `Machine` (`machine.dfy`): the constants `MAX_LINES`, `MAX_BET`, `MIN_BET`, `ROWS`,
  `COLS`, the `Symbol` type, the count table `SymbolCount` (a sequence of pairs, in the
  order the dictionary is walked) and the payout table `SymbolValues`.
- `Payout` (`payout.dfy`): `check_winnings`. `CheckWinnings` keeps the nested loop with
  its `break` and `for`/`else`. It is proved equal to two reference functions:
  `WinningLines`, the 1-based numbers of the uniform rows among the first `lines`, and
  `Winnings`, the sum of `values[symbol] * bet` over those rows. The lemmas state the
  properties of these two functions.
- `Reels` (`reels.dfy`): `get_slot_machine_spin`. `BuildBag` fills the bag by appending.
  `DrawColumn` draws one column from its own copy of the bag and removes each symbol it
  draws. `GetSlotMachineSpin` fills the columns. They are proved equal to the reference
  functions `BagOf`, `Draw` and `Reels`. The random source is a parameter: `picks[c][k]`
  stands for the choice `random.choice` makes at draw `k` of column `c`. It selects the
  element at index `picks[c][k] % n` of the `n` symbols left at that draw. Every index is
  reachable that way, so every theorem holds for every possible choice.
- `Input` (`input.dfy`): the check each prompt makes on one attempt (`deposit`,
  `get_number_of_lines`, `get_bet`). The text must be all ASCII digits (`isdigit`). Its
  value (`int`) must be in the prompt's range. Each check is a function that returns the
  accepted value or the reason for refusal (`NotANumber`, `OutOfRange`). `Show` spells a
  number in decimal, so acceptance can also be stated for numbers.
- `Session` (`session.dfy`): `spin` and `main`. `Spin` checks the stake against the
  balance and then spins and evaluates the grid. `Play` runs the `main` loop over a list
  of rounds and stops at the first answer `"q"`. The reference functions are `NetChange`
  (what `spin` returns) and `FinalBalance` (the balance `main` ends with).

Where the code's behaviour may surprise, the model follows the code:

- Running out of symbols is not detected up front. `random.choice` fails on an empty list
  (main.py:78). That happens only when there is at least one column to fill and `rows`
  is greater than the bag size. The model returns `Err(ChoiceFromEmptyBag)` in exactly
  that case.
- `list.remove(value)` (main.py:79) deletes the first element equal to the drawn symbol,
  which may not be the element that was picked. `Remove` models this. Counts are the
  same either way, but the bag's order is not.
- `spin` also subtracts the stake from, and adds the winnings to, its own local copy of
  the balance (main.py:210-211). That copy is thrown away. The caller's balance changes
  only by the value returned (main.py:223), and that is how the model does it.

## Model

| member | source | states |
|---|---|---|
| `Payout.CheckWinnings` | main.py:26-52 | the total equals `Winnings` and the list equals `WinningLines` for the given grid, line count, bet and payouts, so the result depends only on the arguments |
| `Payout.WinningLinesExact` | main.py:42-50 | the reported lines are strictly increasing, each is in 1..lines, and `i+1` is reported exactly when row `i` holds the same symbol in every column |
| `Payout.WinningLinesIncreasing` | main.py:42-50 | the reported lines are strictly increasing |
| `Payout.WinningLinesMembers` | main.py:42-50 | `i+1` is reported exactly when row `i` holds the same symbol in every column |
| `Payout.WinningLinesBounded` | main.py:42-50 | every reported line number lies in 1..lines |
| `Payout.WinningsArePayOfWinningLines` | main.py:40-52 | the total equals the pay of the reported lines added up, each line paying its symbol's value times the bet |
| `Payout.PayOfSnoc` | main.py:49 | one more winning line adds that line's pay, its symbol's value times the bet, to the total |
| `Payout.NoWinMeansZero` | main.py:40-52 | when no bet-on row is uniform, the result is `(0, [])` |
| `Payout.WinningsNonNegative` | main.py:49 | with a non-negative bet and non-negative payouts, the total is non-negative |
| `Payout.WinningsAtMost` | main.py:49 | with payouts of at most `top`, the total is at most `lines * top * bet` |
| `Payout.RowsBeyondBetIgnored` | main.py:42-45 | two grids that agree on the first `lines` rows give the same list and the same total, so rows at index `lines` or beyond never matter |
| `Payout.PricedPrefix` | main.py:42-49 | a grid that covers and prices `n` rows also covers and prices every shorter prefix |
| `Payout.WorkedExample` | main.py:42-50 | rows A A A / B C B / D D D with a bet of 2: on three lines, lines `[1, 3]` win 14; on one line, `[1]` wins 10 |
| `Reels.Copies` | main.py:70-71 | a loop over `range(count)` appends `max(count, 0)` copies |
| `Reels.BagOf` | main.py:68-71 | the bag holds as many symbols as the table's counts add up to |
| `Reels.CopiesCount` | main.py:70-71 | the copies for an entry hold exactly `max(count, 0)` of its symbol and none of any other |
| `Reels.BagCounts` | main.py:68-71 | the bag holds exactly the configured number of copies of every symbol |
| `Reels.BuildBag` | main.py:68-71 | the appending loops build exactly `BagOf(table)` |
| `Reels.Remove` | main.py:79 | removing a drawn symbol leaves one element fewer |
| `Reels.RemoveCounts` | main.py:79 | removing a drawn symbol takes away exactly one copy of it and leaves every other count unchanged |
| `Reels.DrawSpec` | main.py:77-80 | a column can be drawn exactly when the bag has at least as many symbols as draws; the column then has one symbol per draw and never more copies of a symbol than the bag |
| `Reels.ReelsOk` | main.py:74-81 | the spin fails exactly when some column cannot be drawn |
| `Reels.ReelsErr` | main.py:78 | one column that cannot be drawn makes the whole spin fail |
| `Reels.ReelsColumns` | main.py:74-81 | column `c` is what drawing `picks[c]` from a fresh copy of the full bag gives, so no column's draws affect another column |
| `Reels.SpinShape` | main.py:68-83 | the spin fails exactly when `cols > 0` and `rows` exceeds the bag size; otherwise it has `cols` columns of `rows` symbols |
| `Reels.SpinWithinCounts` | main.py:68-83 | no column of a spin holds more copies of a symbol than the table gives that symbol |
| `Reels.DrawColumn` | main.py:75-81 | the draw-and-remove loop for one column returns exactly `Draw(bag, picks)`, including the failure on an empty bag |
| `Reels.GetSlotMachineSpin` | main.py:55-83 | the result equals `Reels(BagOf(symbols), picks)`; it is an error exactly when `cols > 0` and `rows` exceeds the bag size; otherwise it has `cols` columns of `rows` symbols within the configured counts |
| `Input.IsDigits` | main.py:113 | `isdigit` on ASCII text: text that holds a sign, a space or a decimal point is never all digits |
| `Input.ValueOf` | main.py:114 | `int` of a digit string is 0 exactly when every digit is a zero |
| `Input.ParseDigits` | main.py:113-114 | text is read as a number exactly when it is all digits, and then as the number it spells; any other text is "not a number" |
| `Input.ReadDeposit` | main.py:113-120 | a deposit is accepted exactly when the text is all digits and spells a number above 0, and then as that number; it is "out of range" exactly when the digits are all zeros and "not a number" exactly when the text is not all digits |
| `Input.ReadLines` | main.py:127-134 | a line count is accepted exactly when the text is all digits and spells a number in 1..MAX_LINES, and then as that number; it is "not a number" exactly when the text is not all digits |
| `Input.ReadBet` | main.py:147-154 | a bet is accepted exactly when the text is all digits and spells a number in MIN_BET..MAX_BET, and then as that number; it is "not a number" exactly when the text is not all digits |
| `Input.ValueOfShow` | main.py:114 | reading back the decimal spelling of a number (`int`) gives the number |
| `Input.NumbersAccepted` | main.py:113-149 | for the spelling of `n`: a deposit is accepted as `n` exactly when `n > 0`, a line count exactly when `1 <= n <= MAX_LINES`, a bet exactly when `MIN_BET <= n <= MAX_BET`; otherwise the refusal is "out of range" |
| `Input.AcceptedInRange` | main.py:113-149 | for any text, each prompt accepts exactly when the text is all digits and the number it spells is in the prompt's range, and then with that number (`"007"` is a deposit of 7); digits spelling a number out of range are refused as "out of range"; text that is not all digits is refused as "not a number" by every prompt |
| `Input.DepositBoundaries` | main.py:113-116 | `"0"` is out of range, `"1"` is accepted, `"-5"`, `"abc"` and `""` are not numbers |
| `Input.LinesBoundaries` | main.py:127-129 | `"0"` and `"4"` are out of range, `"1"` and `"3"` are accepted |
| `Input.LeadingZero` | main.py:146-147 | `"0100"` is all digits and reads as 100 |
| `Input.BetBoundaries` | main.py:147-149 | `"0"` and `"101"` are out of range, `"1"`, `"100"` and `"0100"` are accepted, `"1.5"` and `" 1"` are not numbers |
| `Machine.SymbolValuesTotal` | main.py:18-23 | every symbol has a positive payout |
| `Machine.SymbolValuesBounded` | main.py:18-23 | no payout is negative and none exceeds A's payout of 5 |
| `Session.MachineBag` | main.py:11-16 | the game's bag holds 20 symbols: 2 A, 4 B, 6 C, 8 D |
| `Session.SpinGrid` | main.py:194 | a spin of the game's machine never fails and gives 3 columns of 3 symbols |
| `Session.GridEvaluable` | main.py:194-200 | a grid of the game's machine can be evaluated on up to `MAX_LINES` lines with the game's payouts |
| `Session.NetChangeAborted` | main.py:183-188 | a round whose stake `bet * lines` exceeds the balance returns 0 |
| `Session.NetChangeCompleted` | main.py:183-213 | a round that is not aborted returns its winnings minus its stake |
| `Session.PlayReels` | main.py:190-213 | spinning and evaluating return the grid `SpinGrid(picks)` and the winnings minus the stake |
| `Session.Spin` | main.py:158-213 | returns `NetChange`; no grid is produced exactly when the stake exceeds the balance; otherwise the grid is `SpinGrid(picks)` |
| `Session.RoundLaw` | main.py:183-213 | a completed round loses at most the stake and wins at most 4 times the stake; it never takes a non-negative balance below 0 |
| `Session.InsufficientFunds` | main.py:186-188 | a balance of 5 with 2 lines at 3 per line: the round returns 0 whatever the reels would be |
| `Session.NextNonNegative` | main.py:222-223 | a round played from a non-negative balance leaves it non-negative |
| `Session.RoundsFitSuffix` | main.py:218-223 | the rounds still ahead at any pass of the loop are all acceptable rounds |
| `Session.FinalBalanceStep` | main.py:218-223 | one pass of the loop: the answer `"q"` ends the session, any other answer adds the round's result to the balance |
| `Session.FinalBalanceNonNegative` | main.py:216-223 | from a non-negative balance, the session never ends with a negative one |
| `Session.Play` | main.py:216-225 | the balance ends at `FinalBalance(deposit, rounds)` and is never negative |

## Left out

- Output: `print_slot_machine` and every `print`, prompt and message (main.py:86-100, 118-120, 132-134, 152-154, 187, 191, 197, 203-207, 219, 225). These only format text.
- Re-prompting: the `while True` loops in `deposit`, `get_number_of_lines` and `get_bet` repeat until an attempt is accepted. The model has the per-attempt checks (`ReadDeposit`, `ReadLines`, `ReadBet`). `Spin` takes the values those prompts return, and `Play` takes the deposit.
- Reading the answer: `input` in `main` becomes the `answer` field of each `Round`. The session stops at the first `"q"`, or when the list of rounds runs out.
- Randomness: `random.choice` becomes the `picks` parameter. Uniformity and the odds of any outcome are not modelled.
- Digits: `str.isdigit` also accepts non-ASCII digits, and `int` reads some of them and fails on others such as superscripts. Only `'0'..'9'` are modelled.
- Payout.CheckWinnings: requires at least one column when at least one line is bet on. With no columns the source raises `IndexError` at `columns[0]` (main.py:43); every grid the game spins has three.
- Payout.CheckWinnings: requires every column to be long enough for the bet-on rows. In the source, a too-short column raises `IndexError` only when every column before it matched at that row. The inner loop's `break` skips the rest.
- Payout.CheckWinnings: requires a payout entry only for the symbol of a winning row. This is the one lookup that raises `KeyError` in the source.
- Reels.Remove: requires the symbol to be in the list. The source removes a symbol it has just drawn from that list, so the `ValueError` of `list.remove` cannot happen.
- Reels.GetSlotMachineSpin: requires one list of picks per column and one pick per row. These are the `cols * rows` calls to `random.choice`.
- Count tables: a Python dictionary cannot repeat a key, but a table here can. `CountIn` then adds up the entries for a symbol.
- Input.ParseDigits: does not model the limit of 4300 digits that recent CPython versions put on `int` of a string (main.py:114, 128, 148). Longer digit strings make `int` raise `ValueError` and end the program; the model reads them as their number. The limit depends on the interpreter's version and settings, not on the program.
