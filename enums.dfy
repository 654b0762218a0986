/**
 * The enumerations and constant tables of the tabular object class:
 * error codes, column data types, operator types and the schema indices
 * reserved for aggregate output columns. The source keeps all of them as
 * plain C++ ints, and so does this model.
 */
module Enums {

  // TablesErrCodes: numbered from 1 upwards.
  const EmptySchema: int := 1
  const BadColInfoFormat: int := 2
  const BadColInfoConversion: int := 3
  const UnsupportedSkyDataType: int := 4
  const UnsupportedAggDataType: int := 5
  const UnknownSkyDataType: int := 6
  const RequestedColIndexOOB: int := 7
  const PredicateComparisonNotDefined: int := 8
  const PredicateRegexPatternNotSet: int := 9
  const OpNotRecognized: int := 10
  const OpNotImplemented: int := 11
  const BuildSkyIndexDecodeBlsErr: int := 12
  const BuildSkyIndexExtractFbErr: int := 13
  const BuildSkyIndexUnsupportedColType: int := 14
  const BuildSkyIndexColTypeNotImplemented: int := 15
  const BuildSkyIndexUnsupportedNumCols: int := 16
  const BuildSkyIndexUnsupportedAggCol: int := 17
  const BuildSkyIndexKeyCreationFailed: int := 18
  const RowIndexOOB: int := 19

  // SkyDataType: the column types of the data format, numbered from 1.
  const SDT_INT8: int := 1
  const SDT_INT16: int := 2
  const SDT_INT32: int := 3
  const SDT_INT64: int := 4
  const SDT_UINT8: int := 5
  const SDT_UINT16: int := 6
  const SDT_UINT32: int := 7
  const SDT_UINT64: int := 8
  const SDT_CHAR: int := 9
  const SDT_UCHAR: int := 10
  const SDT_BOOL: int := 11
  const SDT_FLOAT: int := 12
  const SDT_DOUBLE: int := 13
  const SDT_DATE: int := 14
  const SDT_STRING: int := 15
  const SDT_FIRST: int := SDT_INT8
  const SDT_LAST: int := SDT_STRING

  // SkyOpType: the predicate operators, numbered from 1.
  const SOT_lt: int := 1
  const SOT_gt: int := 2
  const SOT_eq: int := 3
  const SOT_ne: int := 4
  const SOT_leq: int := 5
  const SOT_geq: int := 6
  const SOT_add: int := 7
  const SOT_sub: int := 8
  const SOT_mul: int := 9
  const SOT_div: int := 10
  const SOT_min: int := 11
  const SOT_max: int := 12
  const SOT_sum: int := 13
  const SOT_cnt: int := 14
  const SOT_like: int := 15
  const SOT_in: int := 16
  const SOT_not_in: int := 17
  const SOT_between: int := 18
  const SOT_logical_or: int := 19
  const SOT_logical_and: int := 20
  const SOT_logical_not: int := 21
  const SOT_logical_nor: int := 22
  const SOT_logical_xor: int := 23
  const SOT_logical_nand: int := 24
  const SOT_bitwise_and: int := 25
  const SOT_bitwise_or: int := 26
  const SOT_FIRST: int := SOT_lt
  const SOT_LAST: int := SOT_bitwise_or

  // AggColIdx: schema indices that mark an output column as an aggregate.
  const AGG_COL_MIN: int := -1
  const AGG_COL_MAX: int := -2
  const AGG_COL_SUM: int := -3
  const AGG_COL_CNT: int := -4
  const AGG_COL_FIRST: int := AGG_COL_MIN
  const AGG_COL_LAST: int := AGG_COL_CNT

  /** agg_idx_names: aggregate name to its reserved schema index. */
  const AggIdxNames: map<string, int> :=
    map["min" := AGG_COL_MIN, "max" := AGG_COL_MAX, "sum" := AGG_COL_SUM, "cnt" := AGG_COL_CNT]

  /**
   * The four aggregate names map to four distinct indices in the reserved
   * range AGG_COL_LAST..AGG_COL_FIRST, all negative, so an aggregate column
   * can never be mistaken for a real column index (which is never negative).
   */
  lemma AggIdxNamesAreSentinels()
    ensures AggIdxNames.Keys == {"min", "max", "sum", "cnt"}
    ensures forall n :: n in AggIdxNames ==> AGG_COL_LAST <= AggIdxNames[n] <= AGG_COL_FIRST < 0
    ensures forall n, m :: n in AggIdxNames && m in AggIdxNames && n != m ==> AggIdxNames[n] != AggIdxNames[m]
  {
  }
}
