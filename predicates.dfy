/**
 * TypedPredicate<T>: one predicate of a query, on one column, with an
 * operator and a literal value of type T. Its constructor asserts that the
 * operator suits both the column's data type and T; everything but the
 * value is const, and the value is rewritten only by updateAgg, which the
 * scan uses to keep the running result of a global aggregate.
 */
module Predicates {
  import opened Enums

  /**
   * The C++ type T a predicate is instantiated with. Only the type traits
   * the constructor tests matter; plain char is taken to be signed.
   * uint8_t is unsigned char, so UChar stands for both; int8_t is signed
   * char, a type distinct from char, so Int8 and Char differ.
   */
  datatype ValueFamily =
    | Int8 | Int16 | Int32 | Int64
    | UInt16 | UInt32 | UInt64
    | Char | UChar | Bool | Float | Double | String
  {
    /** std::is_arithmetic<T>: every type here but std::string. */
    predicate IsArithmetic() {
      !String?
    }

    /** std::is_integral<T>: the integers, char, unsigned char and bool. */
    predicate IsIntegral() {
      !(Float? || Double? || String?)
    }

    /** std::is_unsigned<T>: the unsigned integers (uint8_t is UChar) and bool. */
    predicate IsUnsigned() {
      UInt16? || UInt32? || UInt64? || UChar? || Bool?
    }

    /** T is std::string, char or unsigned char (which includes uint8_t). */
    predicate IsStringOrChar() {
      String? || Char? || UChar?
    }
  }

  /** The operators whose predicate accumulates across rows. */
  predicate IsGlobalAggOp(op: int) {
    op == SOT_min || op == SOT_max || op == SOT_sum || op == SOT_cnt
  }

  /** The comparison, arithmetic and aggregate operators, lt through cnt. */
  predicate IsArithmeticOp(op: int) {
    op == SOT_lt || op == SOT_gt || op == SOT_eq || op == SOT_ne || op == SOT_leq || op == SOT_geq
    || op == SOT_add || op == SOT_sub || op == SOT_mul || op == SOT_div
    || op == SOT_min || op == SOT_max || op == SOT_sum || op == SOT_cnt
  }

  predicate IsLogicalOp(op: int) {
    op == SOT_logical_or || op == SOT_logical_and || op == SOT_logical_not
    || op == SOT_logical_nor || op == SOT_logical_xor || op == SOT_logical_nand
  }

  predicate IsBitwiseOp(op: int) {
    op == SOT_bitwise_and || op == SOT_bitwise_or
  }

  /** Column types an arithmetic operator accepts. */
  predicate IsArithmeticColType(t: int) {
    t == SDT_INT8 || t == SDT_INT16 || t == SDT_INT32 || t == SDT_INT64
    || t == SDT_UINT8 || t == SDT_UINT16 || t == SDT_UINT32 || t == SDT_UINT64
    || t == SDT_BOOL || t == SDT_CHAR || t == SDT_UCHAR || t == SDT_FLOAT || t == SDT_DOUBLE
  }

  /** Column types a logical operator accepts. */
  predicate IsLogicalColType(t: int) {
    t == SDT_INT8 || t == SDT_INT16 || t == SDT_INT32 || t == SDT_INT64
    || t == SDT_UINT8 || t == SDT_UINT16 || t == SDT_UINT32 || t == SDT_UINT64
    || t == SDT_BOOL || t == SDT_CHAR || t == SDT_UCHAR
  }

  /** Column types the regex operator accepts. */
  predicate IsLikeColType(t: int) {
    t == SDT_STRING || t == SDT_CHAR || t == SDT_UCHAR
  }

  /**
   * The constructor's switch: true exactly when none of the asserts of
   * the case op selects fails. in and not_in assert that T is
   * std::vector<T>, which no type is; between and unrecognised ops assert
   * an error code equals 0, which none does.
   */
  predicate ConstructionLegal(op: int, colType: int, family: ValueFamily)
    ensures ConstructionLegal(op, colType, family) ==>
      SOT_FIRST <= op <= SOT_LAST && op != SOT_in && op != SOT_not_in && op != SOT_between
    ensures ConstructionLegal(op, colType, family) && !IsBitwiseOp(op) ==>
      SDT_FIRST <= colType <= SDT_LAST && colType != SDT_DATE
    ensures ConstructionLegal(op, colType, family) && op != SOT_like ==> family.IsArithmetic()
  {
    if IsArithmeticOp(op) then family.IsArithmetic() && IsArithmeticColType(colType)
    else if op == SOT_like then family.IsStringOrChar() && IsLikeColType(colType)
    else if IsLogicalOp(op) then family.IsIntegral() && IsLogicalColType(colType)
    else if IsBitwiseOp(op) then family.IsIntegral() && family.IsUnsigned()
    else false
  }

  class TypedPredicate<T> {
    const colIdx: int
    const colType: int
    const opType: int
    const isGlobalAgg: bool
    /**
     * The traits of T. Dafny's T carries no C++ type traits, so the caller
     * supplies them; nothing ties family to T beyond that.
     */
    ghost const family: ValueFamily
    var value: T

    ghost predicate Valid() {
      isGlobalAgg == IsGlobalAggOp(opType) && ConstructionLegal(opType, colType, family)
    }

    /** TypedPredicate(idx, type, op, val), with the regex of a like op left out. */
    constructor (idx: int, colType: int, op: int, ghost family: ValueFamily, val: T)
      requires ConstructionLegal(op, colType, family)
      ensures Valid()
      ensures this.colIdx == idx && this.colType == colType && this.opType == op
      ensures this.family == family && value == val
      ensures isGlobalAgg <==> op == SOT_min || op == SOT_max || op == SOT_sum || op == SOT_cnt
    {
      this.colIdx := idx;
      this.colType := colType;
      this.opType := op;
      this.isGlobalAgg := op == SOT_min || op == SOT_max || op == SOT_sum || op == SOT_cnt;
      this.family := family;
      this.value := val;
    }

    /** Val(): the predicate's literal, or the running result of an aggregate. */
    function Val(): (v: T)
      reads this
      ensures v == value
    {
      value
    }

    /**
     * updateAgg: overwrites the value. colIdx, colType, opType and
     * isGlobalAgg are const, so they keep their values by construction.
     */
    method UpdateAgg(newval: T)
      requires Valid()
      modifies this
      ensures Valid() && Val() == newval
    {
      value := newval;
    }
  }

  /** lt through cnt need an arithmetic T and any column type but DATE and STRING. */
  lemma ArithmeticOpLegality(op: int, colType: int, family: ValueFamily)
    requires SOT_lt <= op <= SOT_cnt
    ensures ConstructionLegal(op, colType, family) <==>
      family.IsArithmetic() && SDT_FIRST <= colType <= SDT_LAST && colType != SDT_DATE && colType != SDT_STRING
  {
  }

  /** like needs T in string, char, unsigned char (or uint8_t) and a STRING, CHAR or UCHAR column. */
  lemma LikeOpLegality(colType: int, family: ValueFamily)
    ensures ConstructionLegal(SOT_like, colType, family) <==>
      (family == String || family == Char || family == UChar)
      && (colType == SDT_STRING || colType == SDT_CHAR || colType == SDT_UCHAR)
  {
  }

  /** The logical ops need an integral T and exclude FLOAT, DOUBLE, DATE and STRING columns. */
  lemma LogicalOpLegality(op: int, colType: int, family: ValueFamily)
    requires SOT_logical_or <= op <= SOT_logical_nand
    ensures ConstructionLegal(op, colType, family) <==>
      family.IsIntegral() && SDT_FIRST <= colType <= SDT_LAST
      && colType != SDT_FLOAT && colType != SDT_DOUBLE && colType != SDT_DATE && colType != SDT_STRING
  {
  }

  /**
   * The bitwise ops need T integral and unsigned and check no column type
   * at all: a bitwise and over a STRING column is accepted with a
   * uint64_t literal and refused with a std::string one.
   */
  lemma BitwiseOpLegality(op: int, colType: int, family: ValueFamily)
    requires op == SOT_bitwise_and || op == SOT_bitwise_or
    ensures ConstructionLegal(op, colType, family) <==>
      family in {UInt16, UInt32, UInt64, UChar, Bool}
    ensures ConstructionLegal(op, SDT_STRING, UInt64) && !ConstructionLegal(op, SDT_STRING, String)
  {
  }

  /** in, not_in, between and every op outside 1..26 never construct. */
  lemma UnconstructibleOps(op: int, colType: int, family: ValueFamily)
    requires op == SOT_in || op == SOT_not_in || op == SOT_between || op < SOT_FIRST || op > SOT_LAST
    ensures !ConstructionLegal(op, colType, family)
  {
  }

  /** A constructible global aggregate has an arithmetic T over a numeric, non-date column. */
  lemma GlobalAggIsNumeric(op: int, colType: int, family: ValueFamily)
    requires IsGlobalAggOp(op) && ConstructionLegal(op, colType, family)
    ensures family.IsArithmetic()
    ensures SDT_FIRST <= colType <= SDT_DOUBLE
  {
  }
}
