/**
 * col_info, the descriptor of one schema column, and compareColInfo.
 * All its fields are const, so it is a value here. Schema text carries one
 * descriptor per line as the space-separated fields idx type is_key
 * nullable name, which toString writes and the string constructor reads.
 */
module ColumnInfo {
  import opened Results
  import opened Enums
  import opened Decimal
  import opened CppStd

  datatype ColInfo = ColInfo(idx: Int32, colType: Int32, isKey: bool, nullable: bool, name: string)
  {
    /** The type every constructor asserts: SDT_FIRST..SDT_LAST. */
    predicate Valid() {
      SDT_FIRST <= colType <= SDT_LAST
    }

    /**
     * toString: the five fields, space-separated, padded with three spaces
     * on each side. When the name is one field, splitting the text on spaces
     * gives back idx, type, is_key, nullable and name, in that order.
     */
    function ToString(): (s: string)
      ensures IsField(name) ==>
        Fields(s) == [IntToString(idx), IntToString(colType),
                      IntToString(if isKey then 1 else 0), IntToString(if nullable then 1 else 0), name]
    {
      var fs := [IntToString(idx), IntToString(colType),
                 IntToString(if isKey then 1 else 0), IntToString(if nullable then 1 else 0), name];
      PaddedLineFields(fs);
      "   " + JoinSpaced(fs) + "   "
    }

    /**
     * compareName: whether colname is this column's name, that is, whether
     * renaming the column to colname leaves it compareColInfo-equal.
     */
    function CompareName(colname: string): (same: bool)
      ensures same <==> CompareColInfo(this, ColInfo(idx, colType, isKey, nullable, colname))
    {
      colname == name
    }
  }

  /** The strings of fs, in order, with one space between neighbours. */
  function JoinSpaced(fs: seq<string>): string
    requires fs != []
  {
    if |fs| == 1 then fs[0] else fs[0] + " " + JoinSpaced(fs[1..])
  }

  /** Why a constructor does not complete: std::stoi threw, or the type assert failed. */
  datatype CtorFailure = Threw(exception: StdException) | TypeAssertFailed

  /** col_info(int i, int t, bool key, bool nulls, string n). */
  function NewColInfo(i: Int32, t: Int32, key: bool, nulls: bool, n: string): (r: Result<ColInfo, CtorFailure>)
    ensures r.Success? <==> SDT_FIRST <= t <= SDT_LAST
    ensures r.Success? ==> r.value.Valid() && r.value == ColInfo(i, t, key, nulls, n)
    ensures r.Failure? ==> r.error == TypeAssertFailed
  {
    if SDT_FIRST <= t <= SDT_LAST then Success(ColInfo(i, t, key, nulls, n)) else Failure(TypeAssertFailed)
  }

  /**
   * col_info(string i, string t, string key, string nulls, string n):
   * idx and type through std::stoi, in that order; a flag is set when its
   * string starts with '1' (an empty string reads '\0' at index 0).
   */
  function ColInfoFromStrings(i: string, t: string, key: string, nulls: string, n: string): (r: Result<ColInfo, CtorFailure>)
    ensures r.Success? <==> Stoi(i).Success? && Stoi(t).Success? && SDT_FIRST <= Stoi(t).value <= SDT_LAST
    ensures r.Success? ==> r.value.Valid() && r.value.idx == Stoi(i).value && r.value.colType == Stoi(t).value
    ensures r.Success? ==> r.value.name == n
    ensures r.Success? ==> (r.value.isKey <==> key != [] && key[0] == '1')
    ensures r.Success? ==> (r.value.nullable <==> nulls != [] && nulls[0] == '1')
    ensures Stoi(i).Failure? ==> r == Failure(Threw(Stoi(i).error))
    ensures Stoi(i).Success? && Stoi(t).Failure? ==> r == Failure(Threw(Stoi(t).error))
    ensures Stoi(i).Success? && Stoi(t).Success? && !(SDT_FIRST <= Stoi(t).value <= SDT_LAST) ==>
      r == Failure(TypeAssertFailed)
  {
    match Stoi(i)
    case Failure(e) => Failure(Threw(e))
    case Success(idx) =>
      match Stoi(t)
      case Failure(e) => Failure(Threw(e))
      case Success(colType) =>
        NewColInfo(idx, colType, key != [] && key[0] == '1', nulls != [] && nulls[0] == '1', n)
  }

  /** compareColInfo: field-by-field equality, which for descriptors is equality itself. */
  function CompareColInfo(l: ColInfo, r: ColInfo): (same: bool)
    ensures same <==> l == r
  {
    l.idx == r.idx && l.colType == r.colType && l.isKey == r.isKey && l.nullable == r.nullable && l.name == r.name
  }

  /** compareColInfo holds exactly of equal descriptors, hence is reflexive and symmetric. */
  lemma CompareColInfoIsEquality(l: ColInfo, r: ColInfo)
    ensures CompareColInfo(l, r) <==> l == r
    ensures CompareColInfo(l, l)
    ensures CompareColInfo(l, r) == CompareColInfo(r, l)
  {
  }

  /** Descriptors compareColInfo calls equal answer every name lookup alike. */
  lemma CompareColInfoAgreesOnName(l: ColInfo, r: ColInfo, colname: string)
    requires CompareColInfo(l, r)
    ensures l.CompareName(colname) == r.CompareName(colname)
  {
  }

  /** The longest prefix of s without a space. */
  function Word(s: string): (w: string)
    ensures w <= s && ' ' !in w
    ensures s != [] && s[0] != ' ' ==> w != []
  {
    if s == [] || s[0] == ' ' then [] else [s[0]] + Word(s[1..])
  }

  /** The space-separated fields of a line of schema text, empty fields dropped. */
  function Fields(s: string): seq<string>
    decreases |s|
  {
    if s == [] then []
    else if s[0] == ' ' then Fields(s[1..])
    else
      var w := Word(s);
      [w] + Fields(s[|w|..])
  }

  lemma FieldsSkipSpace(s: string)
    ensures Fields(" " + s) == Fields(s)
  {
    assert (" " + s)[1..] == s;
  }

  predicate AllSpaces(s: string) {
    forall i :: 0 <= i < |s| ==> s[i] == ' '
  }

  lemma {:induction false} FieldsOfSpaces(s: string)
    requires AllSpaces(s)
    ensures Fields(s) == []
  {
    if s != [] {
      FieldsOfSpaces(s[1..]);
    }
  }

  /** A field, one field of text, is a non-empty string without spaces. */
  predicate IsField(w: string) {
    w != [] && ' ' !in w
  }

  lemma {:induction false} WordOfField(w: string, s: string)
    requires ' ' !in w
    requires s == [] || s[0] == ' '
    ensures Word(w + s) == w
  {
    if w != [] {
      assert (w + s)[1..] == w[1..] + s;
      WordOfField(w[1..], s);
    }
  }

  /** A field followed by spaces or by a space and more text splits off first. */
  lemma FieldsOfField(w: string, s: string)
    requires IsField(w) && (s == [] || s[0] == ' ')
    ensures Fields(w + s) == [w] + Fields(s)
  {
    WordOfField(w, s);
    assert (w + s)[|w|..] == s;
  }

  /** Joined fields followed by trailing spaces split back into the fields. */
  lemma {:induction false} FieldsOfJoined(fs: seq<string>, tail: string)
    requires fs != [] && forall i :: 0 <= i < |fs| ==> IsField(fs[i])
    requires AllSpaces(tail)
    ensures Fields(JoinSpaced(fs) + tail) == fs
  {
    assert IsField(fs[0]);
    if |fs| == 1 {
      FieldsOfField(fs[0], tail);
      FieldsOfSpaces(tail);
    } else {
      var rest := JoinSpaced(fs[1..]) + tail;
      assert JoinSpaced(fs) + tail == fs[0] + (" " + rest);
      FieldsOfField(fs[0], " " + rest);
      FieldsSkipSpace(rest);
      FieldsOfJoined(fs[1..], tail);
    }
  }

  /** The strings std::to_string writes for flags. */
  lemma FlagStrings()
    ensures IntToString(1) == "1" && IntToString(0) == "0"
  {
    assert NumDigits(1) == 1 && NumDigits(0) == 1;
  }

  /** A line of fields, padded with three spaces on each side, splits back into them. */
  lemma PaddedLineFields(fs: seq<string>)
    requires fs != []
    ensures (forall i :: 0 <= i < |fs| ==> IsField(fs[i])) ==> Fields("   " + JoinSpaced(fs) + "   ") == fs
  {
    if forall i :: 0 <= i < |fs| ==> IsField(fs[i]) {
      var joined := JoinSpaced(fs);
      assert "   " + joined + "   " == " " + (" " + (" " + (joined + "   ")));
      FieldsOfJoined(fs, "   ");
      FieldsSkipSpace(joined + "   ");
      FieldsSkipSpace(" " + (joined + "   "));
      FieldsSkipSpace(" " + (" " + (joined + "   ")));
    }
  }

  /**
   * Splitting toString's output into fields and handing them to the string
   * constructor rebuilds a descriptor compareColInfo-equal to the original,
   * for every valid descriptor whose name is one field.
   */
  lemma {:induction false} ToStringRoundTrip(c: ColInfo)
    requires c.Valid() && IsField(c.name)
    ensures var f := Fields(c.ToString());
      |f| == 5 && ColInfoFromStrings(f[0], f[1], f[2], f[3], f[4]).Success?
      && CompareColInfo(ColInfoFromStrings(f[0], f[1], f[2], f[3], f[4]).value, c)
  {
    StoiIntToString(c.idx);
    StoiIntToString(c.colType);
    FlagStrings();
  }
}
