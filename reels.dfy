/**
 * Reel generation: every column is filled by drawing symbols, without
 * replacement, from its own fresh copy of a bag that holds `count` copies of
 * each symbol of the count table.
 *
 * The random source is a parameter: `picks[c][k]` stands for the random
 * choice at draw `k` of column `c`, which takes the element at index
 * `picks[c][k] % n` of the bag of `n` symbols left at that draw. Every index
 * is reachable, so every property below holds for every possible choice.
 */
module Reels {
  import opened Wrappers
  import opened Machine

  /** A random choice was asked of an empty bag: more rows than symbols. */
  datatype SpinError = ChoiceFromEmptyBag

  /** `count` copies of `s`, as appended by a loop over `range(count)`. */
  function Copies(s: Symbol, count: int): (r: seq<Symbol>)
    ensures |r| == Max0(count)
    decreases count
  {
    if count <= 0 then [] else Copies(s, count - 1) + [s]
  }

  /** The bag: each entry of the table contributes its copies, in table order. */
  function BagOf(table: seq<(Symbol, int)>): (r: seq<Symbol>)
    ensures |r| == TotalCount(table)
    decreases |table|
  {
    if table == [] then []
    else BagOf(table[..|table| - 1]) + Copies(table[|table| - 1].0, table[|table| - 1].1)
  }

  /** How many copies of `s` the table asks for, over all its entries. */
  function CountIn(table: seq<(Symbol, int)>, s: Symbol): nat
    decreases |table|
  {
    if table == [] then 0
    else CountIn(table[..|table| - 1], s)
         + (if table[|table| - 1].0 == s then Max0(table[|table| - 1].1) else 0)
  }

  /** How many symbols the table asks for in all. */
  function TotalCount(table: seq<(Symbol, int)>): nat
    decreases |table|
  {
    if table == [] then 0 else TotalCount(table[..|table| - 1]) + Max0(table[|table| - 1].1)
  }

  lemma {:induction false} CopiesCount(s: Symbol, count: int, t: Symbol)
    ensures multiset(Copies(s, count))[t] == if s == t then Max0(count) else 0
    decreases count
  {
    if count > 0 {
      CopiesCount(s, count - 1, t);
    }
  }

  /** The bag holds exactly the configured number of copies of every symbol. */
  lemma {:induction false} BagCounts(table: seq<(Symbol, int)>, s: Symbol)
    ensures multiset(BagOf(table))[s] == CountIn(table, s)
    decreases |table|
  {
    if table != [] {
      var last := table[|table| - 1];
      BagCounts(table[..|table| - 1], s);
      CopiesCount(last.0, last.1, s);
    }
  }

  /** Fills the bag by appending, entry by entry, `count` copies of each symbol. */
  method BuildBag(table: seq<(Symbol, int)>) returns (bag: seq<Symbol>)
    ensures bag == BagOf(table)
  {
    bag := [];
    for e := 0 to |table|
      invariant bag == BagOf(table[..e])
    {
      var (symbol, count) := table[e];
      var filled := bag;
      var k := 0;
      while k < count
        invariant 0 <= k && (k <= count || k == 0)
        invariant bag == filled + Copies(symbol, k)
      {
        bag := bag + [symbol];
        k := k + 1;
      }
      assert table[..e + 1][..e] == table[..e];
      assert Copies(symbol, k) == Copies(symbol, count);
    }
    assert table[..|table|] == table;
  }

  /**
   * `list.remove`: deletes the first element equal to `x`, so one copy of
   * `x` fewer and every other element kept.
   */
  function Remove(s: seq<Symbol>, x: Symbol): (r: seq<Symbol>)
    requires x in s
    ensures |r| == |s| - 1
  {
    if s[0] == x then s[1..] else [s[0]] + Remove(s[1..], x)
  }

  /** Removing `x` takes away one copy of `x` and keeps every other element. */
  lemma {:induction false} RemoveCounts(s: seq<Symbol>, x: Symbol)
    requires x in s
    ensures multiset(Remove(s, x)) == multiset(s) - multiset{x}
  {
    assert s == [s[0]] + s[1..];
    if s[0] != x {
      RemoveCounts(s[1..], x);
    }
  }

  /** Add `col` in front of the column a draw produced, keeping an error. */
  function Prepend(col: Column, r: Result<Column, SpinError>): Result<Column, SpinError> {
    match r
    case Ok(rest) => Ok(col + rest)
    case Err(e) => Err(e)
  }

  lemma PrependNil(r: Result<Column, SpinError>)
    ensures Prepend([], r) == r
  {
    if r.Ok? {
      assert [] + r.value == r.value;
    }
  }

  lemma PrependSnoc(col: Column, value: Symbol, r: Result<Column, SpinError>)
    ensures Prepend(col, Prepend([value], r)) == Prepend(col + [value], r)
  {
    if r.Ok? {
      assert col + ([value] + r.value) == (col + [value]) + r.value;
    }
  }

  /** One column: draw `|picks|` symbols from `current`, removing each one drawn. */
  function Draw(current: seq<Symbol>, picks: seq<nat>): Result<Column, SpinError>
    decreases |picks|
  {
    if picks == [] then Ok([])
    else if current == [] then Err(ChoiceFromEmptyBag)
    else
      var value := current[picks[0] % |current|];
      Prepend([value], Draw(Remove(current, value), picks[1..]))
  }

  /**
   * A column can be drawn exactly when the bag is at least as large as the
   * number of draws; it then has one symbol per draw, and never more copies
   * of a symbol than the bag held.
   */
  lemma {:induction false} DrawSpec(current: seq<Symbol>, picks: seq<nat>)
    ensures Draw(current, picks).Ok? <==> |picks| <= |current|
    ensures Draw(current, picks).Ok? ==>
      |Draw(current, picks).value| == |picks|
      && multiset(Draw(current, picks).value) <= multiset(current)
    decreases |picks|
  {
    if picks != [] && current != [] {
      var value := current[picks[0] % |current|];
      var rest := Remove(current, value);
      DrawSpec(rest, picks[1..]);
      RemoveCounts(current, value);
      if Draw(rest, picks[1..]).Ok? {
        var col := Draw(rest, picks[1..]).value;
        assert multiset([value] + col) == multiset{value} + multiset(col);
      }
    }
  }

  /** The columns drawn, left to right, each from the same full bag. */
  function Reels(bag: seq<Symbol>, picks: seq<seq<nat>>): Result<Grid, SpinError>
    decreases |picks|
  {
    if picks == [] then Ok([])
    else
      match Reels(bag, picks[..|picks| - 1])
      case Err(e) => Err(e)
      case Ok(columns) =>
        match Draw(bag, picks[|picks| - 1])
        case Err(e) => Err(e)
        case Ok(column) => Ok(columns + [column])
  }

  /** Reels fail exactly when some column cannot be drawn. */
  lemma {:induction false} ReelsOk(bag: seq<Symbol>, picks: seq<seq<nat>>)
    ensures Reels(bag, picks).Ok? <==> forall c :: 0 <= c < |picks| ==> Draw(bag, picks[c]).Ok?
    decreases |picks|
  {
    if picks != [] {
      var init, last := picks[..|picks| - 1], picks[|picks| - 1];
      assert forall c :: 0 <= c < |init| ==> init[c] == picks[c];
      ReelsOk(bag, init);
      assert Reels(bag, picks).Ok? <==> Reels(bag, init).Ok? && Draw(bag, last).Ok?;
      assert (forall c :: 0 <= c < |picks| ==> Draw(bag, picks[c]).Ok?)
        <==> (forall c :: 0 <= c < |init| ==> Draw(bag, init[c]).Ok?) && Draw(bag, last).Ok?;
    }
  }

  /** One column that cannot be drawn makes the whole spin fail. */
  lemma ReelsErr(bag: seq<Symbol>, picks: seq<seq<nat>>, c: nat)
    requires c < |picks| && Draw(bag, picks[c]).Err?
    ensures Reels(bag, picks) == Err(ChoiceFromEmptyBag)
  {
    ReelsOk(bag, picks);
    assert !Draw(bag, picks[c]).Ok?;
    var e := Reels(bag, picks).error;
    assert e.ChoiceFromEmptyBag?;
  }

  /**
   * Column `c` of the reels is what drawing `picks[c]` from a fresh copy of
   * the bag gives, so no column's draws affect another's.
   */
  lemma {:induction false} ReelsColumns(bag: seq<Symbol>, picks: seq<seq<nat>>)
    requires Reels(bag, picks).Ok?
    ensures |Reels(bag, picks).value| == |picks|
    ensures forall c :: 0 <= c < |picks| ==> Draw(bag, picks[c]) == Ok(Reels(bag, picks).value[c])
    decreases |picks|
  {
    if picks != [] {
      var init := picks[..|picks| - 1];
      assert forall c :: 0 <= c < |init| ==> init[c] == picks[c];
      ReelsColumns(bag, init);
      var columns := Reels(bag, init).value;
      var column := Draw(bag, picks[|picks| - 1]).value;
      assert Reels(bag, picks).value == columns + [column];
    }
  }

  /** Every column of a spin. */
  predicate PicksFor(picks: seq<seq<nat>>, rows: int, cols: int) {
    |picks| == Max0(cols) && forall c :: 0 <= c < |picks| ==> |picks[c]| == Max0(rows)
  }

  /** `cols` columns of `rows` symbols. */
  predicate GridShaped(grid: Grid, rows: int, cols: int) {
    |grid| == Max0(cols) && forall c :: 0 <= c < |grid| ==> |grid[c]| == Max0(rows)
  }

  /** No column holds more copies of a symbol than the table gives it. */
  predicate WithinCounts(grid: Grid, symbols: seq<(Symbol, int)>) {
    forall c, s :: 0 <= c < |grid| ==> multiset(grid[c])[s] <= CountIn(symbols, s)
  }

  /**
   * The shape of a spin: it fails exactly when there is a column to fill and
   * more rows than symbols in the bag; otherwise it has `cols` columns of
   * `rows` symbols.
   */
  lemma SpinShape(rows: int, cols: int, symbols: seq<(Symbol, int)>, picks: seq<seq<nat>>)
    requires PicksFor(picks, rows, cols)
    ensures Reels(BagOf(symbols), picks).Err? <==> cols > 0 && rows > TotalCount(symbols)
    ensures Reels(BagOf(symbols), picks).Ok? ==> GridShaped(Reels(BagOf(symbols), picks).value, rows, cols)
  {
    var bag := BagOf(symbols);
    ReelsOk(bag, picks);
    forall c | 0 <= c < |picks| {
      DrawSpec(bag, picks[c]);
    }
    if cols > 0 && rows > TotalCount(symbols) {
      assert !Draw(bag, picks[0]).Ok?;
    }
    if Reels(bag, picks).Ok? {
      ReelsColumns(bag, picks);
    }
  }

  /**
   * Sampling without replacement: no column of a spin holds more copies of
   * a symbol than the table gives it.
   */
  lemma SpinWithinCounts(symbols: seq<(Symbol, int)>, picks: seq<seq<nat>>)
    requires Reels(BagOf(symbols), picks).Ok?
    ensures WithinCounts(Reels(BagOf(symbols), picks).value, symbols)
  {
    var bag := BagOf(symbols);
    ReelsColumns(bag, picks);
    forall c, s | 0 <= c < |picks|
      ensures multiset(Reels(bag, picks).value[c])[s] <= CountIn(symbols, s)
    {
      DrawSpec(bag, picks[c]);
      BagCounts(symbols, s);
    }
  }

  /**
   * One column of `get_slot_machine_spin`: copy the bag, then `rows` times
   * choose a symbol, remove it from the copy and append it to the column.
   */
  method DrawColumn(bag: seq<Symbol>, p: seq<nat>) returns (r: Result<Column, SpinError>)
    ensures r == Draw(bag, p)
  {
    var column: Column := [];
    var current := bag;
    var k := 0;
    PrependNil(Draw(current, p));
    while k < |p|
      invariant 0 <= k <= |p| && k <= |bag|
      invariant |current| == |bag| - k
      invariant Draw(bag, p) == Prepend(column, Draw(current, p[k..]))
    {
      if |current| == 0 {
        // `random.choice` raises on an empty list.
        return Err(ChoiceFromEmptyBag);
      }
      var value := current[p[k] % |current|];
      assert p[k..][1..] == p[k + 1..];
      PrependSnoc(column, value, Draw(Remove(current, value), p[k + 1..]));
      current := Remove(current, value);
      column := column + [value];
      k := k + 1;
    }
    assert p[k..] == [];
    assert column + [] == column;
    r := Ok(column);
  }

  /**
   * `get_slot_machine_spin`: build the bag, then fill `cols` columns, each
   * from its own copy of it.
   */
  method GetSlotMachineSpin(rows: int, cols: int, symbols: seq<(Symbol, int)>, picks: seq<seq<nat>>)
    returns (r: Result<Grid, SpinError>)
    requires PicksFor(picks, rows, cols)
    ensures r == Reels(BagOf(symbols), picks)
    ensures r.Err? <==> cols > 0 && rows > TotalCount(symbols)
    ensures r.Ok? ==> GridShaped(r.value, rows, cols) && WithinCounts(r.value, symbols)
  {
    var allSymbols := BuildBag(symbols);
    var columns: Grid := [];
    var c := 0;
    while c < cols
      invariant 0 <= c <= |picks|
      invariant Reels(allSymbols, picks[..c]) == Ok(columns)
    {
      var column := DrawColumn(allSymbols, picks[c]);
      assert picks[..c + 1][..c] == picks[..c];
      if column.Err? {
        ReelsErr(allSymbols, picks, c);
        r := Err(ChoiceFromEmptyBag);
        SpinShape(rows, cols, symbols, picks);
        return;
      }
      columns := columns + [column.value];
      c := c + 1;
    }
    assert picks[..c] == picks;
    r := Ok(columns);
    SpinShape(rows, cols, symbols, picks);
    SpinWithinCounts(symbols, picks);
  }
}
