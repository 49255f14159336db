/** The pure parts of the order intake: the display names of the work
    pieces a client can order, and the parser that turns a money string
    such as "$123.45" or "123.45€" into a count of cents. */
module Orders {
  import opened RustInts
  import opened Wrappers

  // ---------------------------------------------------------------------
  // Work pieces

  datatype WorkPiece = P5 | P6 | P7 | P9

  /** The names the four work pieces are stored and looked up under. */
  const WORK_PIECE_NAMES: set<string> := {"P5", "P6", "P7", "P9"}

  /** `Display` of a work piece: its variant name. */
  function WorkPieceName(p: WorkPiece): (name: string)
    ensures name in WORK_PIECE_NAMES
    ensures |name| == 2 && name[0] == 'P' && '5' <= name[1] <= '9'
  {
    match p
    case P5 => "P5"
    case P6 => "P6"
    case P7 => "P7"
    case P9 => "P9"
  }

  /** Distinct work pieces are displayed under distinct names, so the name
      identifies the piece it is looked up by. */
  lemma WorkPieceNameInjective(p: WorkPiece, q: WorkPiece)
    ensures WorkPieceName(p) == WorkPieceName(q) ==> p == q
  {
  }

  /** Every one of the four names is the name of some work piece; with
      injectivity, display is a bijection onto exactly these names. */
  lemma WorkPieceNamesCovered(name: string)
    requires name in WORK_PIECE_NAMES
    ensures exists p :: WorkPieceName(p) == name
  {
    if name == "P5" {
      assert WorkPieceName(P5) == name;
    } else if name == "P6" {
      assert WorkPieceName(P6) == name;
    } else if name == "P7" {
      assert WorkPieceName(P7) == name;
    } else {
      assert WorkPieceName(P9) == name;
    }
  }

  // ---------------------------------------------------------------------
  // Rust's `str::parse::<i64>`

  /** The kinds of `std::num::ParseIntError` that parsing an `i64` yields. */
  datatype IntErrorKind = Empty | InvalidDigit | PosOverflow | NegOverflow

  predicate IsAsciiDigit(c: char) {
    '0' <= c <= '9'
  }

  function DigitValue(c: char): (d: nat)
    requires IsAsciiDigit(c)
    ensures d <= 9
  {
    c as int - '0' as int
  }

  function Pow10(n: nat): (p: nat)
    ensures p >= 1
  {
    if n == 0 then 1 else 10 * Pow10(n - 1)
  }

  predicate AllDigits(s: string) {
    forall i :: 0 <= i < |s| ==> IsAsciiDigit(s[i])
  }

  /** The number a string of decimal digits denotes: the sum of each digit
      times ten to the power of its distance from the end. */
  function DecimalValue(ds: string): (v: nat)
    requires AllDigits(ds)
    ensures v < Pow10(|ds|)
  {
    if ds == [] then 0
    else
      var p := Pow10(|ds| - 1);
      var rest := DecimalValue(ds[1..]);
      LeadingDigitBound(DigitValue(ds[0]), p, rest);
      DigitValue(ds[0]) * p + rest
  }

  /** A leading digit in front of a shorter number stays below the next
      power of ten. */
  lemma LeadingDigitBound(d: nat, p: nat, v: nat)
    requires d <= 9 && v < p
    ensures d * p + v < 10 * p
  {
    assert d * p <= 9 * p;
  }

  /** The digit loop of `i64::from_str_radix` for a non-negative number:
      multiply by ten and add each digit, checking every step. An invalid
      digit is reported before an overflow at the same position. */
  function AccumulatePos(digits: string, acc: int): (r: Result<i64, IntErrorKind>)
    requires 0 <= acc <= I64_MAX
    ensures r.Ok? ==> r.value as int >= acc
    ensures r.Err? ==> r.error == InvalidDigit || r.error == PosOverflow
    decreases |digits|
  {
    if digits == [] then Ok(acc as i64)
    else if !IsAsciiDigit(digits[0]) then Err(InvalidDigit)
    // `checked_mul` then `checked_add`: either failing is the same error,
    // and since the digit is non-negative one test covers both
    else if acc * 10 + DigitValue(digits[0]) > I64_MAX then Err(PosOverflow)
    else AccumulatePos(digits[1..], acc * 10 + DigitValue(digits[0]))
  }

  /** The digit loop for a number after a leading '-': digits are
      subtracted so that `i64::MIN` is reachable. */
  function AccumulateNeg(digits: string, acc: int): (r: Result<i64, IntErrorKind>)
    requires I64_MIN <= acc <= 0
    ensures r.Ok? ==> r.value as int <= acc
    ensures r.Err? ==> r.error == InvalidDigit || r.error == NegOverflow
    decreases |digits|
  {
    if digits == [] then Ok(acc as i64)
    else if !IsAsciiDigit(digits[0]) then Err(InvalidDigit)
    else if acc * 10 - DigitValue(digits[0]) < I64_MIN then Err(NegOverflow)
    else AccumulateNeg(digits[1..], acc * 10 - DigitValue(digits[0]))
  }

  /** `s.parse::<i64>()`: an optional sign, then at least one decimal
      digit. A lone sign is an invalid digit, the empty string is `Empty`. */
  function ParseI64(s: string): (r: Result<i64, IntErrorKind>)
    ensures r == Err(Empty) <==> s == []
  {
    if s == [] then Err(Empty)
    else if (s[0] == '+' || s[0] == '-') && |s| == 1 then Err(InvalidDigit)
    else if s[0] == '+' then AccumulatePos(s[1..], 0)
    else if s[0] == '-' then AccumulateNeg(s[1..], 0)
    else AccumulatePos(s, 0)
  }

  /** On a string of digits the loop computes the decimal value, shifted
      past the accumulator, and fails with `PosOverflow` exactly when that
      value exceeds `i64::MAX`: the partial values only grow. */
  lemma {:induction false} AccumulatePosDigits(digits: string, acc: int)
    requires 0 <= acc <= I64_MAX && AllDigits(digits)
    ensures var total := acc * Pow10(|digits|) + DecimalValue(digits);
            AccumulatePos(digits, acc)
              == if total <= I64_MAX then Ok(total as i64) else Err(PosOverflow)
    decreases |digits|
  {
    if digits != [] {
      var n := |digits|;
      var d := DigitValue(digits[0]);
      var rest := digits[1..];
      assert AllDigits(rest) by {
        forall i | 0 <= i < |rest| ensures IsAsciiDigit(rest[i]) {
          assert rest[i] == digits[i + 1];
        }
      }
      var next := acc * 10 + d;
      var p := Pow10(n - 1);
      var v := DecimalValue(rest);
      assert Pow10(n) == 10 * p;
      assert DecimalValue(digits) == d * p + v;
      ShiftDigit(acc, d, p, v);
      if next > I64_MAX {
        GrowsPastShift(next, p, v);
      } else {
        AccumulatePosDigits(rest, next);
      }
    }
  }

  /** Appending a digit to the accumulator before or after the shift. */
  lemma ShiftDigit(acc: int, d: int, p: int, v: int)
    ensures acc * (10 * p) + (d * p + v) == (acc * 10 + d) * p + v
  {
  }

  /** A positive partial value never shrinks as digits are appended. */
  lemma GrowsPastShift(next: int, p: int, v: int)
    requires next >= 0 && p >= 1 && v >= 0
    ensures next * p + v >= next
  {
  }

  /** Parsing a non-empty string of digits: its decimal value when that
      fits in an `i64`, `PosOverflow` otherwise. */
  lemma ParseI64Digits(ds: string)
    requires ds != [] && AllDigits(ds)
    ensures ParseI64(ds) == if DecimalValue(ds) <= I64_MAX then Ok(DecimalValue(ds) as i64) else Err(PosOverflow)
  {
    assert IsAsciiDigit(ds[0]);
    AccumulatePosDigits(ds, 0);
  }

  // ---------------------------------------------------------------------
  // Money strings

  /** The ASCII digits of `s`, in order, every other character dropped. */
  function AsciiDigits(s: string): (ds: string)
    ensures AllDigits(ds) && |ds| <= |s|
    ensures ds == [] <==> forall i :: 0 <= i < |s| ==> !IsAsciiDigit(s[i])
  {
    if s == [] then []
    else if IsAsciiDigit(s[0]) then [s[0]] + AsciiDigits(s[1..])
    else AsciiDigits(s[1..])
  }

  /** Every ASCII digit of the input is kept, as often as it occurs, and
      nothing else is. */
  lemma {:induction false} AsciiDigitsCounts(s: string, c: char)
    ensures multiset(AsciiDigits(s))[c] == if IsAsciiDigit(c) then multiset(s)[c] else 0
  {
    if s != [] {
      AsciiDigitsCounts(s[1..], c);
      assert s == [s[0]] + s[1..];
    }
  }

  /** `parse_money_string`: the ASCII digits of the string, read as one
      `i64`. The result counts cents when the string has two decimals. */
  function ParseMoneyString(money: string): (r: Result<i64, IntErrorKind>)
    ensures r.Ok? ==> r.value >= 0 && r.value as int == DecimalValue(AsciiDigits(money))
    ensures r == Err(Empty) <==> forall i :: 0 <= i < |money| ==> !IsAsciiDigit(money[i])
    ensures r == Err(PosOverflow) <==> AsciiDigits(money) != [] && DecimalValue(AsciiDigits(money)) > I64_MAX
    ensures r.Ok? || r == Err(Empty) || r == Err(PosOverflow)
  {
    var ds := AsciiDigits(money);
    if ds != [] then ParseI64Digits(ds); ParseI64(ds)
    else ParseI64(ds)
  }

  /** Keeping digits distributes over concatenation. */
  lemma {:induction false} AsciiDigitsAppend(s: string, t: string)
    ensures AsciiDigits(s + t) == AsciiDigits(s) + AsciiDigits(t)
  {
    if s == [] {
      assert s + t == t;
    } else {
      assert (s + t)[0] == s[0] && (s + t)[1..] == s[1..] + t;
      AsciiDigitsAppend(s[1..], t);
    }
  }

  /** Inserting a character that is not an ASCII digit anywhere in the
      input (or, read backwards, removing one) leaves the result as it was. */
  lemma NonDigitInsensitive(s: string, c: char, t: string)
    requires !IsAsciiDigit(c)
    ensures ParseMoneyString(s + [c] + t) == ParseMoneyString(s + t)
  {
    AsciiDigitsAppend(s, [c] + t);
    AsciiDigitsAppend([c], t);
    AsciiDigitsAppend(s, t);
    assert s + [c] + t == s + ([c] + t);
  }

  /** A leading minus sign is dropped with the other non-digits: the
      money parser reads "-5" as 5, where `parse::<i64>` alone gives -5. */
  lemma MinusSignIgnored()
    ensures ParseI64("-5") == Ok(-5)
    ensures ParseMoneyString("-5") == Ok(5)
  {
    assert AsciiDigits("-5") == "5";
  }

  /** The two documented examples: a dollar amount with the sign in front
      and a euro amount with the sign behind both give 12345 cents. */
  lemma MoneyExamples()
    ensures ParseMoneyString("$123.45") == Ok(12345)
    ensures ParseMoneyString("123.45€") == Ok(12345)
  {
    DigitsOfExamples();
    DecimalOfExample();
    ParseMoneyValue("$123.45");
    ParseMoneyValue("123.45€");
  }

  /** Whenever the digits of the input fit in an `i64`, the parse succeeds
      with their decimal value. */
  lemma ParseMoneyValue(money: string)
    requires AsciiDigits(money) != [] && DecimalValue(AsciiDigits(money)) <= I64_MAX
    ensures ParseMoneyString(money) == Ok(DecimalValue(AsciiDigits(money)) as i64)
  {
  }

  /** The decimal value of the examples' digits, one digit at a time. */
  lemma DecimalOfExample()
    ensures DecimalValue("12345") == 12345
  {
    assert "12345"[1..] == "2345" && "2345"[1..] == "345" && "345"[1..] == "45" && "45"[1..] == "5";
    assert DecimalValue("5") == 5;
    assert DecimalValue("45") == 4 * 10 + 5;
    assert DecimalValue("345") == 3 * 100 + 45;
    assert DecimalValue("2345") == 2 * 1000 + 345;
    assert DecimalValue("12345") == 1 * 10000 + 2345;
  }

  /** The digits of the two examples, filtered one character at a time
      from the end. */
  lemma DigitsOfExamples()
    ensures AsciiDigits("$123.45") == "12345"
    ensures AsciiDigits("123.45€") == "12345"
  {
    assert AsciiDigits("5") == "5";
    assert AsciiDigits("45") == "45";
    assert AsciiDigits(".45") == "45";
    assert AsciiDigits("3.45") == "345";
    assert AsciiDigits("23.45") == "2345";
    assert AsciiDigits("123.45") == "12345";
    assert AsciiDigits("$123.45") == "12345";
    assert AsciiDigits("€") == "";
    assert AsciiDigits("5€") == "5";
    assert AsciiDigits("45€") == "45";
    assert AsciiDigits(".45€") == "45";
    assert AsciiDigits("3.45€") == "345";
    assert AsciiDigits("23.45€") == "2345";
    assert AsciiDigits("123.45€") == "12345";
  }
}
