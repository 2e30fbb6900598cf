/** util/validator/validator.go: the three custom binding rules registered
    with the request validator (`phone_number`, `date`, `product_size`). Each
    regular expression is written out as the predicate it accepts: both are
    anchored at both ends and `[0-9]` and `\d` are ASCII digits, so a match is
    a fixed-length check position by position. */
module Validator {
  import opened GoStrings

  const Small: string := "small"
  const Large: string := "large"

  /** The value a rule sees: a Go string, or a value of any other kind. */
  datatype FieldValue = GoString(s: string) | NonString

  /** `^010([0-9]{4})([0-9]{4})$`. */
  predicate MatchesPhoneNumber(s: string)
  {
    |s| == 11 && s[..3] == "010" && AllDigits(s[3..7]) && AllDigits(s[7..11])
  }

  /** `(0[1-9]|1[0-2])` */
  predicate MatchesMonth(a: char, b: char)
  {
    (a == '0' && '1' <= b <= '9') || (a == '1' && '0' <= b <= '2')
  }

  /** `(0[1-9]|[12][0-9]|3[01])` */
  predicate MatchesDay(a: char, b: char)
  {
    (a == '0' && '1' <= b <= '9') || ((a == '1' || a == '2') && IsDigit(b)) || (a == '3' && (b == '0' || b == '1'))
  }

  /** `^\d{4}-(0[1-9]|1[0-2])-(0[1-9]|[12][0-9]|3[01])$`. */
  predicate MatchesDate(s: string)
  {
    |s| == 10 && AllDigits(s[..4]) && s[4] == '-' && MatchesMonth(s[5], s[6])
    && s[7] == '-' && MatchesDay(s[8], s[9])
  }

  /** `ValidatePhoneNumber`: a string must be a mobile number `010` followed by
      eight digits; a value that is not a string passes. */
  function ValidatePhoneNumber(v: FieldValue): (ok: bool)
    ensures v.NonString? ==> ok
    ensures v.GoString? ==> (ok <==> exists d :: |d| == 8 && AllDigits(d) && v.s == "010" + d)
  {
    match v
    case NonString => true
    case GoString(s) =>
      PhoneNumberShape(s);
      MatchesPhoneNumber(s)
  }

  /** The phone expression accepts exactly `010` followed by eight digits. */
  lemma PhoneNumberShape(s: string)
    ensures MatchesPhoneNumber(s) <==> exists d :: |d| == 8 && AllDigits(d) && s == "010" + d
  {
    if MatchesPhoneNumber(s) {
      var d := s[3..];
      forall i | 0 <= i < 8 ensures IsDigit(d[i]) {
        if i < 4 {
          assert d[i] == s[3..7][i];
        } else {
          assert d[i] == s[7..11][i - 4];
        }
      }
      assert s == "010" + d;
    }
    if d :| |d| == 8 && AllDigits(d) && s == "010" + d {
      assert s[3..7] == d[..4] && s[7..11] == d[4..];
      assert forall i :: 0 <= i < 4 ==> d[..4][i] == d[i] && d[4..][i] == d[i + 4];
    }
  }

  /** `ValidateDate`: a string must look like `YYYY-MM-DD`; a value that is not
      a string passes. */
  function ValidateDate(v: FieldValue): (ok: bool)
    ensures v.NonString? ==> ok
    ensures v.GoString? ==> (ok <==> DateShaped(v.s) && 1 <= Month(v.s) <= 12 && 1 <= Day(v.s) <= 31)
  {
    match v
    case NonString => true
    case GoString(s) =>
      DateByNumbers(s);
      MatchesDate(s)
  }

  /** `IsSupportedProductSize`. */
  function IsSupportedProductSize(size: string): (ok: bool)
    ensures ok <==> size == Small || size == Large
  {
    match size
    case "small" => true
    case "large" => true
    case _ => false
  }

  /** `ValidateProductSize`: unlike the other two rules, a value that is not a
      string fails. */
  function ValidateProductSize(v: FieldValue): (ok: bool)
    ensures ok <==> v.GoString? && (v.s == Small || v.s == Large)
  {
    match v
    case NonString => false
    case GoString(s) => IsSupportedProductSize(s)
  }

  /** A numeric reading of a date string, independent of the regular
      expression: ten runes, digits everywhere except two dashes. */
  predicate DateShaped(s: string)
  {
    |s| == 10 && s[4] == '-' && s[7] == '-'
    && AllDigits(s[..4]) && AllDigits(s[5..7]) && AllDigits(s[8..10])
  }

  function DigitValue(c: char): int
  {
    c as int - '0' as int
  }

  function Month(s: string): int
    requires |s| == 10
  {
    10 * DigitValue(s[5]) + DigitValue(s[6])
  }

  function Day(s: string): int
    requires |s| == 10
  {
    10 * DigitValue(s[8]) + DigitValue(s[9])
  }

  /** The date expression accepts exactly the `YYYY-MM-DD` strings whose month
      is 1 to 12 and whose day is 1 to 31. */
  lemma DateByNumbers(s: string)
    ensures MatchesDate(s) <==> DateShaped(s) && 1 <= Month(s) <= 12 && 1 <= Day(s) <= 31
  {
    if |s| == 10 {
      assert AllDigits(s[5..7]) <==> IsDigit(s[5]) && IsDigit(s[6]) by {
        assert s[5..7][0] == s[5] && s[5..7][1] == s[6];
      }
      assert AllDigits(s[8..10]) <==> IsDigit(s[8]) && IsDigit(s[9]) by {
        assert s[8..10][0] == s[8] && s[8..10][1] == s[9];
      }
    }
  }

  /** The rule checks the shape of a date only: a day the month does not have passes. */
  lemma DateRuleIgnoresCalendar()
    ensures ValidateDate(GoString("2023-02-31"))
    ensures ValidateDate(GoString("2023-12-31"))
    ensures !ValidateDate(GoString("2023-13-01"))
    ensures !ValidateDate(GoString("2023-1-01"))
    ensures !ValidateDate(GoString("2023-01-00"))
  {
    assert MatchesDate("2023-02-31");
    assert MatchesDate("2023-12-31");
  }

  /** The phone-number examples of the validator tests. */
  lemma PhoneNumberExamples()
    ensures ValidatePhoneNumber(GoString("01011112222"))
    ensures !ValidatePhoneNumber(GoString("010-1111-2222"))
    ensures !ValidatePhoneNumber(GoString("0101111222"))
  {
    assert MatchesPhoneNumber("01011112222");
  }

  /** The product-size examples of the validator tests. */
  lemma ProductSizeExamples()
    ensures IsSupportedProductSize("small") && IsSupportedProductSize("large")
    ensures !IsSupportedProductSize("medium") && !IsSupportedProductSize("Small")
  {
  }
}
