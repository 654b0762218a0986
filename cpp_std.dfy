/**
 * The C++ integer types and the library conversions the tabular utilities
 * rely on: std::stoi, std::to_string and boost::lexical_cast<uint64_t>.
 */
module CppStd {
  import opened Results
  import opened Decimal

  const INT32_MIN: int := -0x8000_0000
  const INT32_MAX: int := 0x7fff_ffff
  const UINT64_MAX: int := 0xffff_ffff_ffff_ffff

  type Int32 = x: int | INT32_MIN <= x <= INT32_MAX
  type Uint64 = x: int | 0 <= x <= UINT64_MAX

  /** The exceptions std::stoi throws. */
  datatype StdException = InvalidArgument | OutOfRange

  /** isspace in the "C" locale: space, \t, \n, \v, \f and \r. */
  predicate IsSpace(c: char) {
    c == ' ' || 9 <= c as int <= 13
  }

  /** s without its leading white space. */
  function SkipSpace(s: string): (r: string)
    ensures r != [] ==> !IsSpace(r[0])
  {
    if s != [] && IsSpace(s[0]) then SkipSpace(s[1..]) else s
  }

  /**
   * std::stoi(s) in base 10: skips leading white space, reads an optional
   * sign and the longest run of digits that follows, and ignores whatever
   * comes after. No digits throws invalid_argument; a value outside int
   * throws out_of_range.
   */
  function Stoi(s: string): Result<Int32, StdException> {
    var t := SkipSpace(s);
    var negative := t != [] && t[0] == '-';
    var unsigned := if t != [] && (t[0] == '-' || t[0] == '+') then t[1..] else t;
    StoiDigits(negative, DigitRun(unsigned))
  }

  /** The value std::stoi gives to a sign and the digit run after it. */
  function StoiDigits(negative: bool, digits: string): Result<Int32, StdException>
    requires AllDigits(digits)
  {
    if digits == [] then Failure(InvalidArgument)
    else
      var magnitude: int := DigitsValue(digits);
      var v := if negative then -magnitude else magnitude;
      if INT32_MIN <= v <= INT32_MAX then Success(v) else Failure(OutOfRange)
  }

  /** std::to_string of an integer: an optional '-' and the decimal digits. */
  function IntToString(x: int): (s: string)
    ensures s != [] && ' ' !in s
  {
    if x < 0 then "-" + NatToDecimal(-x) else NatToDecimal(x)
  }

  /** std::stoi of an optional '-' followed by digits only. */
  lemma StoiSignedDigits(sign: string, ds: string)
    requires sign == "" || sign == "-"
    requires ds != [] && AllDigits(ds)
    ensures Stoi(sign + ds) == StoiDigits(sign == "-", ds)
  {
    var s := sign + ds;
    assert IsDigit(ds[0]);
    assert SkipSpace(s) == s;
    DigitRunOfDigits(ds);
    var u := if s != [] && (s[0] == '-' || s[0] == '+') then s[1..] else s;
    assert u == ds by {
      if sign == "-" {
        assert s[1..] == ds;
      } else {
        assert s == ds;
      }
    }
    assert DigitRun(u) == ds;
  }

  /** std::stoi reads back exactly what std::to_string wrote, for every int. */
  lemma StoiIntToString(x: int)
    requires INT32_MIN <= x <= INT32_MAX
    ensures Stoi(IntToString(x)) == Success(x)
  {
    if x < 0 {
      StoiSignedDigits("-", NatToDecimal(-x));
    } else {
      StoiSignedDigits("", NatToDecimal(x));
      assert "" + NatToDecimal(x) == NatToDecimal(x);
    }
  }

  /**
   * boost::lexical_cast<uint64_t>(s), taken as: succeeds exactly on a
   * non-empty string of decimal digits whose value fits in 64 bits.
   */
  function LexicalCastU64(s: string): Option<Uint64> {
    if s != [] && AllDigits(s) && DigitsValue(s) <= UINT64_MAX then Some(DigitsValue(s)) else None
  }
}
