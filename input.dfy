/**
 * The acceptance rules of the three prompts. Each attempt is accepted when
 * the typed text is all decimal digits and the number it spells is in the
 * prompt's range; otherwise the prompt is asked again, with a message that
 * tells "not a number" from "out of range".
 */
module Input {
  import opened Wrappers
  import opened Machine

  /** Why an attempt was refused: which of the two messages is shown. */
  datatype InputError = NotANumber | OutOfRange

  predicate IsDigit(ch: char) {
    '0' <= ch <= '9'
  }

  /**
   * `str.isdigit` on ASCII text: at least one character, all digits. A sign,
   * a space or a decimal point, which `int` alone would accept or reject
   * differently, makes the text fail this test.
   */
  predicate IsDigits(s: string)
    ensures IsDigits(s) ==> '-' !in s && '+' !in s && ' ' !in s && '.' !in s
  {
    |s| > 0 && forall i :: 0 <= i < |s| ==> IsDigit(s[i])
  }

  function DigitValue(ch: char): nat
    requires IsDigit(ch)
  {
    (ch as int) - ('0' as int)
  }

  function DigitChar(d: nat): (ch: char)
    requires d < 10
    ensures IsDigit(ch) && DigitValue(ch) == d
  {
    (('0' as int) + d) as char
  }

  /** Every character of `s` is the digit zero. */
  predicate AllZeros(s: string) {
    forall i :: 0 <= i < |s| ==> s[i] == '0'
  }

  /**
   * `int` of a digit string, read most significant digit first. The value
   * is 0 exactly when every digit is a zero.
   */
  function ValueOf(s: string): (r: nat)
    requires forall i :: 0 <= i < |s| ==> IsDigit(s[i])
    ensures r == 0 <==> AllZeros(s)
    decreases |s|
  {
    if s == [] then 0 else ValueOf(s[..|s| - 1]) * 10 + DigitValue(s[|s| - 1])
  }

  /** The decimal spelling of a number, without leading zeros. */
  function Show(n: nat): (s: string)
    ensures IsDigits(s)
    decreases n
  {
    if n < 10 then [DigitChar(n)] else Show(n / 10) + [DigitChar(n % 10)]
  }

  /** Reading back the spelling of a number gives the number. */
  lemma {:induction false} ValueOfShow(n: nat)
    ensures ValueOf(Show(n)) == n
    decreases n
  {
    if n >= 10 {
      ValueOfShow(n / 10);
      var s := Show(n);
      assert s[..|s| - 1] == Show(n / 10);
    }
  }

  /**
   * The first step of every prompt: `isdigit`, then `int`. Text is read as a
   * number exactly when it is all digits; anything else is "not a number".
   */
  function ParseDigits(raw: string): (r: Result<nat, InputError>)
    ensures r.Ok? <==> IsDigits(raw)
    ensures r.Ok? ==> r.value == ValueOf(raw)
    ensures r.Err? ==> r.error == NotANumber
  {
    if IsDigits(raw) then Ok(ValueOf(raw)) else Err(NotANumber)
  }

  /**
   * `deposit`: a number greater than 0. The only digit strings refused are
   * those made of zeros alone.
   */
  function ReadDeposit(raw: string): (r: Result<int, InputError>)
    ensures r.Ok? <==> IsDigits(raw) && ValueOf(raw) > 0
    ensures r.Ok? ==> r.value == ValueOf(raw) && r.value > 0
    ensures r == Err(OutOfRange) <==> IsDigits(raw) && AllZeros(raw)
    ensures r == Err(NotANumber) <==> !IsDigits(raw)
  {
    match ParseDigits(raw)
    case Err(e) => Err(e)
    case Ok(amount) => if amount > 0 then Ok(amount) else Err(OutOfRange)
  }

  /** `get_number_of_lines`: a number in 1..MAX_LINES. */
  function ReadLines(raw: string): (r: Result<int, InputError>)
    ensures r.Ok? <==> IsDigits(raw) && 1 <= ValueOf(raw) <= MAX_LINES
    ensures r.Ok? ==> r.value == ValueOf(raw) && 1 <= r.value <= MAX_LINES
    ensures r == Err(NotANumber) <==> !IsDigits(raw)
  {
    match ParseDigits(raw)
    case Err(e) => Err(e)
    case Ok(lines) => if 1 <= lines <= MAX_LINES then Ok(lines) else Err(OutOfRange)
  }

  /** `get_bet`: a number in MIN_BET..MAX_BET. */
  function ReadBet(raw: string): (r: Result<int, InputError>)
    ensures r.Ok? <==> IsDigits(raw) && MIN_BET <= ValueOf(raw) <= MAX_BET
    ensures r.Ok? ==> r.value == ValueOf(raw) && MIN_BET <= r.value <= MAX_BET
    ensures r == Err(NotANumber) <==> !IsDigits(raw)
  {
    match ParseDigits(raw)
    case Err(e) => Err(e)
    case Ok(amount) => if MIN_BET <= amount <= MAX_BET then Ok(amount) else Err(OutOfRange)
  }

  /**
   * Typing the decimal spelling of a number: the deposit is accepted with
   * that value exactly when it is positive, the line count exactly when it
   * is in 1..MAX_LINES, the bet exactly when it is in MIN_BET..MAX_BET;
   * otherwise the refusal is "out of range".
   */
  lemma NumbersAccepted(n: nat)
    ensures ReadDeposit(Show(n)) == if n > 0 then Ok(n) else Err(OutOfRange)
    ensures ReadLines(Show(n)) == if 1 <= n <= MAX_LINES then Ok(n) else Err(OutOfRange)
    ensures ReadBet(Show(n)) == if MIN_BET <= n <= MAX_BET then Ok(n) else Err(OutOfRange)
  {
    ValueOfShow(n);
  }

  /**
   * Whatever is typed, an attempt is accepted exactly when the text is all
   * digits and the number it spells lies in the prompt's range, and then
   * with that number ("007" is a deposit of 7); digits out of range are
   * refused as "out of range"; text that is not all digits is refused as
   * "not a number" by every prompt.
   */
  lemma AcceptedInRange(raw: string)
    ensures ReadDeposit(raw).Ok? ==> IsDigits(raw) && ReadDeposit(raw).value == ValueOf(raw) > 0
    ensures ReadLines(raw).Ok? ==>
      (IsDigits(raw) && ReadLines(raw).value == ValueOf(raw) && 1 <= ValueOf(raw) <= MAX_LINES)
    ensures ReadBet(raw).Ok? ==>
      (IsDigits(raw) && ReadBet(raw).value == ValueOf(raw) && MIN_BET <= ValueOf(raw) <= MAX_BET)
    ensures !IsDigits(raw) ==>
      ReadDeposit(raw) == ReadLines(raw) == ReadBet(raw) == Err(NotANumber)
    ensures IsDigits(raw) && ValueOf(raw) > 0 ==> ReadDeposit(raw) == Ok(ValueOf(raw))
    ensures IsDigits(raw) && ValueOf(raw) == 0 ==> ReadDeposit(raw) == Err(OutOfRange)
    ensures IsDigits(raw) && 1 <= ValueOf(raw) <= MAX_LINES ==> ReadLines(raw) == Ok(ValueOf(raw))
    ensures IsDigits(raw) && !(1 <= ValueOf(raw) <= MAX_LINES) ==> ReadLines(raw) == Err(OutOfRange)
    ensures IsDigits(raw) && MIN_BET <= ValueOf(raw) <= MAX_BET ==> ReadBet(raw) == Ok(ValueOf(raw))
    ensures IsDigits(raw) && !(MIN_BET <= ValueOf(raw) <= MAX_BET) ==> ReadBet(raw) == Err(OutOfRange)
  {
  }

  /** The boundary cases of the deposit prompt. */
  lemma DepositBoundaries()
    ensures ReadDeposit("0") == Err(OutOfRange) && ReadDeposit("1") == Ok(1)
    ensures ReadDeposit("-5") == Err(NotANumber) && ReadDeposit("abc") == Err(NotANumber)
    ensures ReadDeposit("") == Err(NotANumber)
  {
    NumbersAccepted(0);
    NumbersAccepted(1);
    assert !IsDigit("-5"[0]) && !IsDigit("abc"[0]);
  }

  /** The boundary cases of the line-count prompt. */
  lemma LinesBoundaries()
    ensures ReadLines("0") == Err(OutOfRange) && ReadLines("4") == Err(OutOfRange)
    ensures ReadLines("1") == Ok(1) && ReadLines("3") == Ok(3)
  {
    NumbersAccepted(0);
    NumbersAccepted(1);
    NumbersAccepted(3);
    NumbersAccepted(4);
  }

  /** The boundary cases of the bet prompt; leading zeros are read as the number. */
  lemma BetBoundaries()
    ensures ReadBet("0") == Err(OutOfRange) && ReadBet("101") == Err(OutOfRange)
    ensures ReadBet("1") == Ok(1) && ReadBet("100") == Ok(100) && ReadBet("0100") == Ok(100)
    ensures ReadBet("1.5") == Err(NotANumber) && ReadBet(" 1") == Err(NotANumber)
  {
    NumbersAccepted(0);
    NumbersAccepted(1);
    ThreeDigitSpellings();
    NumbersAccepted(100);
    NumbersAccepted(101);
    LeadingZero();
    assert !IsDigit("1.5"[1]) && !IsDigit(" 1"[0]);
  }

  /** The spellings of 100 and 101. */
  lemma ThreeDigitSpellings()
    ensures Show(100) == "100" && Show(101) == "101"
  {
    assert Show(10) == "10";
  }

  /** A leading zero does not change the value read. */
  lemma LeadingZero()
    ensures IsDigits("0100") && ValueOf("0100") == 100
  {
    assert "0100"[..3] == "010" && "010"[..2] == "01" && "01"[..1] == "0" && "0"[..0] == "";
  }
}
