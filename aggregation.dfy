/**
 * computeAgg, the fold step of the global aggregates MIN, MAX, SUM and
 * CNT. In the source it is a switch whose cases have no break, so control
 * that enters at one case label runs on through the cases below it.
 */
module Aggregation {
  import opened Enums

  /** The case labels of the switch, in the order they are written. */
  datatype CaseLabel = MinCase | MaxCase | SumCase | CntCase {
    /** How many labels lie below this one. */
    function Below(): nat {
      match this
      case MinCase => 3
      case MaxCase => 2
      case SumCase => 1
      case CntCase => 0
    }
  }

  /**
   * The switch body entered at label entry, running through the labels
   * below it until a return. The integer type T is taken as unbounded.
   */
  function RunFrom(entry: CaseLabel, val: int, oldval: int): int
    decreases entry.Below()
  {
    match entry
    case MinCase => if val < oldval then val else RunFrom(MaxCase, val, oldval)
    case MaxCase => if val > oldval then val else RunFrom(SumCase, val, oldval)
    case SumCase => oldval + val
    case CntCase => oldval + 1
  }

  /**
   * computeAgg(val, oldval, op) as written. An op without a case label
   * reaches default, whose assert(OpNotImplemented) holds because that
   * code is 11, not 0; the function then returns oldval.
   */
  function ComputeAgg(val: int, oldval: int, op: int): (r: int)
    ensures op == SOT_sum ==> r == oldval + val
    ensures op == SOT_cnt ==> r == oldval + 1
    ensures op == SOT_max ==> r == if val > oldval then val else oldval + val
    ensures op == SOT_min ==> r == if val != oldval then val else oldval + val
    ensures op != SOT_min && op != SOT_max && op != SOT_sum && op != SOT_cnt ==> r == oldval
  {
    if op == SOT_min then RunFrom(MinCase, val, oldval)
    else if op == SOT_max then RunFrom(MaxCase, val, oldval)
    else if op == SOT_sum then RunFrom(SumCase, val, oldval)
    else if op == SOT_cnt then RunFrom(CntCase, val, oldval)
    else
      assert OpNotImplemented != 0;
      oldval
  }

  /** The results the MIN and MAX cases evidently mean: the smaller and the larger value. */
  function ComputeAggIntended(val: int, oldval: int, op: int): (r: int)
    ensures op == SOT_min ==> r <= val && r <= oldval && (r == val || r == oldval)
    ensures op == SOT_max ==> r >= val && r >= oldval && (r == val || r == oldval)
    ensures op == SOT_sum ==> r == oldval + val
    ensures op == SOT_cnt ==> r == oldval + 1
    ensures op != SOT_min && op != SOT_max && op != SOT_sum && op != SOT_cnt ==> r == oldval
  {
    if op == SOT_min then (if val < oldval then val else oldval)
    else if op == SOT_max then (if val > oldval then val else oldval)
    else if op == SOT_sum then oldval + val
    else if op == SOT_cnt then oldval + 1
    else oldval
  }

  /**
   * Where the fall-through matters: MIN agrees with the minimum only when
   * val < oldval or both are 0, and MAX agrees with the maximum only when
   * val > oldval or val is 0. SUM, CNT and the default always agree.
   */
  lemma FallThroughAgreement(val: int, oldval: int, op: int)
    ensures op == SOT_min ==>
      (ComputeAgg(val, oldval, op) == ComputeAggIntended(val, oldval, op) <==> val < oldval || val == oldval == 0)
    ensures op == SOT_max ==>
      (ComputeAgg(val, oldval, op) == ComputeAggIntended(val, oldval, op) <==> val > oldval || val == 0)
    ensures op != SOT_min && op != SOT_max ==>
      ComputeAgg(val, oldval, op) == ComputeAggIntended(val, oldval, op)
  {
  }

  /** Concrete inputs: MIN of 3 and 7 gives 7, MAX of 7 and 2 gives 9. */
  lemma FallThroughCounterexample()
    ensures ComputeAgg(7, 3, SOT_min) == 7 && ComputeAggIntended(7, 3, SOT_min) == 3
    ensures ComputeAgg(2, 7, SOT_max) == 9 && ComputeAggIntended(2, 7, SOT_max) == 7
  {
  }
}
