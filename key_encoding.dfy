/**
 * The order-preserving textual encoding of 64-bit keys used for the
 * index/omap of a table's primary key: u64tostr writes a key as exactly
 * 20 zero-padded decimal digits, and strtou64 reads one back.
 */
module KeyEncoding {
  import opened Results
  import opened Decimal
  import opened CppStd

  /** Every key is written with this many digits; 2^64 - 1 itself has 20. */
  const KEY_WIDTH: nat := 20

  /** errno's EIO; strtou64 reports a failed conversion as -EIO. */
  const EIO: int := 5

  lemma KeysFitWidth()
    ensures UINT64_MAX < Pow10(KEY_WIDTH)
  {
    assert Pow10(1) == 10;
    assert Pow10(2) == 100;
    assert Pow10(3) == 1000;
    assert Pow10(4) == 10000;
    assert Pow10(5) == 100000;
    assert Pow10(6) == 1000000;
    assert Pow10(7) == 10000000;
    assert Pow10(8) == 100000000;
    assert Pow10(9) == 1000000000;
    assert Pow10(10) == 10000000000;
    assert Pow10(11) == 100000000000;
    assert Pow10(12) == 1000000000000;
    assert Pow10(13) == 10000000000000;
    assert Pow10(14) == 100000000000000;
    assert Pow10(15) == 1000000000000000;
    assert Pow10(16) == 10000000000000000;
    assert Pow10(17) == 100000000000000000;
    assert Pow10(18) == 1000000000000000000;
    assert Pow10(19) == 10000000000000000000;
    assert Pow10(20) == 100000000000000000000;
  }

  /** u64tostr: setw(20) with fill '0', then the value in decimal. */
  function U64ToStr(value: Uint64): (s: string)
    ensures |s| == KEY_WIDTH && AllDigits(s)
    ensures DigitsValue(s) == value
  {
    KeysFitWidth();
    PadDigitsValue(value, KEY_WIDTH);
    PadDigits(value, KEY_WIDTH)
  }

  /** Comparing two encoded keys as strings compares the keys as numbers. */
  lemma {:induction false} U64ToStrOrder(a: Uint64, b: Uint64)
    ensures a < b <==> LexLess(U64ToStr(a), U64ToStr(b))
  {
    KeysFitWidth();
    PadDigitsOrder(a, b, KEY_WIDTH);
  }

  /** Distinct keys never share an encoding. */
  lemma U64ToStrInjective(a: Uint64, b: Uint64)
    requires U64ToStr(a) == U64ToStr(b)
    ensures a == b
  {
  }

  /** Every 20-digit string that parses is the encoding of the value it parses to. */
  lemma {:induction false} ParsedKeyReencodes(s: string)
    requires |s| == KEY_WIDTH && LexicalCastU64(s).Some?
    ensures U64ToStr(LexicalCastU64(s).value) == s
  {
    ValuePadDigits(s);
  }

  /** Decoding an encoded key gives the key back. */
  lemma StrToU64RoundTrip(value: Uint64)
    ensures LexicalCastU64(U64ToStr(value)) == Some(value)
  {
  }

  /** The uint64_t that strtou64 writes its result into. */
  class U64Cell {
    var val: Uint64

    constructor (v: Uint64)
      ensures val == v
    {
      val := v;
    }
  }

  /**
   * strtou64: converts value with boost::lexical_cast; on success stores
   * the result through out and returns 0, on failure returns -EIO and
   * leaves out alone.
   */
  method StrToU64(value: string, out: U64Cell) returns (rc: int)
    modifies out
    ensures rc == 0 || rc == -EIO
    ensures rc == 0 <==> LexicalCastU64(value).Some?
    ensures rc == 0 ==> out.val == LexicalCastU64(value).value
    ensures rc != 0 ==> out.val == old(out.val)
  {
    var v := LexicalCastU64(value);
    if v.None? {
      return -EIO;
    }
    out.val := v.value;
    return 0;
  }
}
