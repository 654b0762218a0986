# Tabular utilities of the Skyhook object class, in Dafny

This project models the part of `src/cls/tabular/cls_tabular_utils.h` that
has bodies: the helpers of an in-storage query engine that filters,
projects and aggregates rows of a columnar record batch next to the data.

- **Enumerations** (`enums.dfy`, module `Enums`): `TablesErrCodes`,
  `SkyDataType` (1..15), `SkyOpType` (1..26), `AggColIdx` (-1..-4) and the
  `agg_idx_names` table, as integer constants, the way the source uses them.
- **Index key encoding** (`key_encoding.dfy`, module `KeyEncoding`):
  `u64tostr` writes a 64-bit key as exactly 20 zero-padded decimal digits,
  so that string order of keys is numeric order; `strtou64` reads a key back
  through an out-pointer and returns 0 or `-EIO`. The out-pointer is the
  field of a small class that the method modifies only on success.
- **Aggregate fold** (`aggregation.dfy`, module `Aggregation`):
  `computeAgg` exactly as written. Its `switch` has no `break`, so the
  model runs the cases as entry points into one sequence (`RunFrom`):
  MIN falls into MAX, MAX into SUM. The `default` branch's
  `assert(OpNotImplemented)` holds (the code is 11), so an unknown op
  returns `oldval`.
- **Typed predicates** (`predicates.dfy`, module `Predicates`): the class
  `TypedPredicate<T>` with its const column index, column type, operator
  and global-aggregate flag, and the one mutable field, the value, which
  `updateAgg` overwrites. The constructor's asserts form a legality table
  over operator, column type and the traits of `T`
  (`ConstructionLegal`); a value-family datatype stands for `T` and carries
  `is_arithmetic`, `is_integral`, `is_unsigned` and "is string/char/uchar".
  The constructor requires the table to hold, as the asserts demand.
- **Column descriptors** (`column_info.dfy`, module `ColumnInfo`):
  `col_info` as a value, its two constructors (from ints, and from strings
  through `std::stoi`), `toString`, `compareName` and `compareColInfo`.
  Constructor failures (the type assert, the exceptions `std::stoi` throws)
  are returned as a `Result`.
- **Support** (`decimal.dfy`, `cpp_std.dfy`, `results.dfy`): decimal digit
  strings and their values, lexicographic string order, and the library
  conversions the header calls: `std::stoi`, `std::to_string` and
  `boost::lexical_cast<uint64_t>`.

Three behaviours of the code are kept as written:

- MIN and MAX fall through: `ComputeAgg` models the switch as it is, and
  `ComputeAggIntended` is the fold without fall-through (see Findings).
- The bitwise ops check no column type, so a bitwise-and predicate over a
  STRING column constructs whenever `T` is integral and unsigned
  (`BitwiseOpLegality`).
- The predicate constructor asserts rather than returning an error code;
  the model keeps those asserts as its precondition. The `col_info`
  constructors return which assert failed or which exception was thrown.

## Model

| member | source | states |
|---|---|---|
| `Enums.AggIdxNamesAreSentinels` | src/cls/tabular/cls_tabular_utils.h:124-146 | `agg_idx_names` maps exactly min, max, sum, cnt to four distinct negative indices between AGG_COL_LAST and AGG_COL_FIRST, so none is a column position |
| `KeyEncoding.KeysFitWidth` | src/cls/tabular/cls_tabular_utils.h:172-177 | every `uint64_t` is below 10^20, so `u64tostr` always yields exactly 20 characters, never more |
| `KeyEncoding.U64ToStr` | src/cls/tabular/cls_tabular_utils.h:172-177 | `u64tostr(v)` has exactly 20 characters, all digits, and denotes `v` in decimal |
| `KeyEncoding.U64ToStrOrder` | src/cls/tabular/cls_tabular_utils.h:172-177 | `a < b` iff `u64tostr(a) < u64tostr(b)` as strings: the encoding is order-preserving |
| `KeyEncoding.U64ToStrInjective` | src/cls/tabular/cls_tabular_utils.h:172-177 | two keys with the same encoding are equal |
| `KeyEncoding.StrToU64RoundTrip` | src/cls/tabular/cls_tabular_utils.h:172-195 | the conversion `strtou64` uses reads every encoded key back to the key |
| `KeyEncoding.ParsedKeyReencodes` | src/cls/tabular/cls_tabular_utils.h:172-195 | every 20-character string that `strtou64` accepts is the encoding of the value it yields |
| `KeyEncoding.StrToU64` | src/cls/tabular/cls_tabular_utils.h:182-195 | returns 0 exactly when the cast succeeds and then stores the value through `out`; otherwise returns `-EIO` and leaves `out` unchanged |
| `Aggregation.ComputeAgg` | src/cls/tabular/cls_tabular_utils.h:548-559 | SUM gives `oldval + val`; CNT gives `oldval + 1` whatever `val`; MAX gives `val` when `val > oldval`, else `oldval + val`; MIN gives `val` when `val != oldval`, else `oldval + val`; any other op gives `oldval` |
| `Aggregation.ComputeAggIntended` | src/cls/tabular/cls_tabular_utils.h:552-553 | corrected fold: MIN returns the smaller and MAX the larger of the two, each one of its inputs; SUM, CNT and default as in the source |
| `Aggregation.FallThroughAgreement` | src/cls/tabular/cls_tabular_utils.h:551-555 | the fold as written equals the corrected one for MIN iff `val < oldval` or both are 0, for MAX iff `val > oldval` or `val` is 0, and always for every other op |
| `Aggregation.FallThroughCounterexample` | src/cls/tabular/cls_tabular_utils.h:552-554 | `computeAgg(7, 3, SOT_min)` is 7 where the minimum is 3; `computeAgg(2, 7, SOT_max)` is 9 where the maximum is 7 |
| `Predicates.TypedPredicate.constructor` | src/cls/tabular/cls_tabular_utils.h:233-333 | constructs only when the legality table holds; sets the const fields and the value from the arguments; `isGlobalAgg` is true exactly for min, max, sum and cnt |
| `Predicates.TypedPredicate.Val` | src/cls/tabular/cls_tabular_utils.h:360 | returns the stored value: the literal, or for a global aggregate the running result last written by `updateAgg` |
| `Predicates.ConstructionLegal` | src/cls/tabular/cls_tabular_utils.h:243-333 | a legal combination has an op in 1..26 other than in, not_in and between; except for the bitwise ops its column type is in 1..15 and not DATE; except for like its `T` is arithmetic |
| `Predicates.TypedPredicate.UpdateAgg` | src/cls/tabular/cls_tabular_utils.h:356-362 | afterwards `Val()` is the new value; index, column type, op and `isGlobalAgg` are const and the predicate stays valid |
| `Predicates.ArithmeticOpLegality` | src/cls/tabular/cls_tabular_utils.h:245-275 | lt..cnt construct iff `T` is arithmetic and the column type is in 1..15 and neither DATE nor STRING |
| `Predicates.LikeOpLegality` | src/cls/tabular/cls_tabular_utils.h:278-287 | like constructs iff `T` is string, char or unsigned char (`uint8_t` included, being the same type) and the column is STRING, CHAR or UCHAR |
| `Predicates.LogicalOpLegality` | src/cls/tabular/cls_tabular_utils.h:302-320 | the logical ops construct iff `T` is integral and the column type is in 1..15 and not FLOAT, DOUBLE, DATE or STRING |
| `Predicates.BitwiseOpLegality` | src/cls/tabular/cls_tabular_utils.h:323-327 | the bitwise ops construct iff `T` is integral and unsigned, whatever the column type; over a STRING column a `uint64_t` literal constructs and a string one does not |
| `Predicates.UnconstructibleOps` | src/cls/tabular/cls_tabular_utils.h:289-332 | in, not_in, between and every op outside 1..26 never construct |
| `Predicates.GlobalAggIsNumeric` | src/cls/tabular/cls_tabular_utils.h:237-275 | a constructible global aggregate has an arithmetic `T` and a column type from INT8 to DOUBLE |
| `ColumnInfo.NewColInfo` | src/cls/tabular/cls_tabular_utils.h:373-378 | the int constructor succeeds iff SDT_FIRST <= type <= SDT_LAST, and then holds exactly its arguments |
| `ColumnInfo.ColInfoFromStrings` | src/cls/tabular/cls_tabular_utils.h:380-386 | the string constructor succeeds iff `stoi` accepts idx and type and the type is in range; a flag is set iff its string starts with '1'; a bad idx fails with its `stoi` exception, else a bad type with its `stoi` exception, else an out-of-range type with the type assert |
| `ColumnInfo.ColInfo.ToString` | src/cls/tabular/cls_tabular_utils.h:388-394 | when the name is one field, splitting the text on spaces yields exactly `idx`, `type`, `is_key`, `nullable` (as `to_string` writes them) and `name`, in that order |
| `ColumnInfo.ColInfo.CompareName` | src/cls/tabular/cls_tabular_utils.h:396 | true iff renaming the column to `colname` leaves it `compareColInfo`-equal, i.e. `colname` is its name |
| `ColumnInfo.CompareColInfo` | src/cls/tabular/cls_tabular_utils.h:400-409 | true iff the two descriptors are equal as values |
| `CppStd.StoiIntToString` | src/cls/tabular/cls_tabular_utils.h:380-394 | `std::stoi` reads back every `int` that `std::to_string` writes, as the string constructor does with `toString`'s fields |
| `ColumnInfo.ToStringRoundTrip` | src/cls/tabular/cls_tabular_utils.h:380-394 | splitting `toString` of a valid descriptor (name one field) on spaces yields `idx type is_key nullable name`, and the string constructor rebuilds a `compareColInfo`-equal descriptor from them |
| `ColumnInfo.CompareColInfoIsEquality` | src/cls/tabular/cls_tabular_utils.h:400-409 | `compareColInfo` holds iff the descriptors are equal in all five fields; it is reflexive and symmetric |
| `ColumnInfo.CompareColInfoAgreesOnName` | src/cls/tabular/cls_tabular_utils.h:396-409 | descriptors `compareColInfo` calls equal give the same `compareName` answer for every name |

## Left out

- Aggregation.ComputeAgg: `T` is an unbounded integer; the wrap-around or overflow of SUM and CNT in a fixed-width `T` is not modelled, and the float and double instantiations (floating point) are left out.
- KeyEncoding.StrToU64: `boost::lexical_cast<uint64_t>` is taken to accept exactly a non-empty string of decimal digits whose value fits in 64 bits; its handling of a leading '+' or '-' (the latter wrapping modulo 2^64) is not modelled. The `CLS_ERR` log line on failure is I/O and is left out.
- Predicates.TypedPredicate.constructor: the regex compiled for a like predicate (`re2::RE2` and its `ok()` assert) is a foreign library call and is left out, and with it `getRegex`. The asserts are modelled as enabled; a build with `NDEBUG` would construct every combination.
- The copy constructor of `TypedPredicate` dereferences `regx`, which is uninitialised unless the op is like; that is undefined behaviour and is not modelled. `getThis` and the `PredicateValue` wrapper add nothing beyond the value field.
- Predicates.TypedPredicate: Dafny's `T` carries no C++ type traits, so the caller supplies them as the ghost `family`; the model does not tie `family` to `T` (a `TypedPredicate<string>` declared with family `UInt64` would construct with a bitwise op).
- Plain `char` is taken to be signed (so `is_unsigned<char>` is false), as on x86 targets; `is_unsigned<bool>` is true, as the C++ standard has it.
- `processSkyFb`, `applyPredicates`, the five `compare` overloads, `schemaFromString`, `schemaToString`, `schemaFromColNames`, `predsFromString`, `predsToString`, `hasAggPreds`, `skyOpTypeFromString`, `skyOpTypeToString`, `buildKeyPrefix` and `buildKeyData` are only declared in this header; their bodies are not part of this model. The field splitting used by `ToStringRoundTrip` is the text format's own rule (fields separated by spaces), not a model of `schemaFromString`.
- `getSkyRoot`, `getSkyRec` and the `root_table` and `rec_table` structs wrap FlatBuffers and FlexBuffers offsets, a foreign library; they are left out, as are the header offsets, delimiters and defaults (lines 148-167) that only those missing functions use, and the `SkyIdxType` enum.
- The debug printers `printSkyRoot`, `printSkyRec` and `printSkyFb` are I/O.
- The test schema strings (lines 457-488) are constant data.

## Findings

| source | as written | input that shows it | evidently intended | confidence | as-written member | corrected member |
|---|---|---|---|---|---|---|
| src/cls/tabular/cls_tabular_utils.h:552 | `case SOT_min` has no `break`: when `val >= oldval` control falls into the MAX test and then into SUM | `computeAgg(7, 3, SOT_min)` returns 7 | 3, the smaller value | high; not executed | `Aggregation.ComputeAgg`, `Aggregation.FallThroughCounterexample` | `Aggregation.ComputeAggIntended` |
| src/cls/tabular/cls_tabular_utils.h:553 | `case SOT_max` has no `break`: when `val <= oldval` control falls into SUM | `computeAgg(2, 7, SOT_max)` returns 9 | 7, the larger value | high; not executed | `Aggregation.ComputeAgg`, `Aggregation.FallThroughCounterexample` | `Aggregation.ComputeAggIntended` |

`FallThroughAgreement` states for which inputs the two folds agree. The
scan that applies the fold is not part of this model, so nothing else here
calls either fold; `ComputeAgg` remains the model of the source.
