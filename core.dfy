/**
 * The framework-independent data declarations of the detection library:
 * the catalogue of data smells and the detection result records.
 */
module Core {

  /** Every data smell a detector can report (member names as in the library's enum). */
  datatype DataSmellType =
    | DUMMY_VALUE_SMELL
    | DUPLICATED_VALUE_SMELL
    | EXTREME_VALUE_SMELL
    | MEANINGLESS_VALUE_SMELL
    | MISSPELLING_SMELL
    | SUSPECT_CLASS_VALUE_SMELL
    | SUSPECT_DATE_VALUE_SMELL
    | SUSPECT_DATE_TIME_INTERVAL_SMELL
    | SUSPECT_SIGN_SMELL
    | SUSPECT_DISTRIBUTION_SMELL
    | AMBIGUOUS_DATE_TIME_FORMAT_SMELL
    | AMBIGUOUS_VALUE_SMELL
    | CASING_SMELL
    | CONTRACTING_SMELL
    | EXTRANEOUS_VALUE_SMELL
    | INTERMINGLED_DATA_TYPE_SMELL
    | LONG_DATA_VALUE_SMELL
    | MISSING_VALUE_SMELL
    | SEPARATING_SMELL
    | SPACING_SMELL
    | SPECIAL_CHARACTER_SMELL
    | SYNONYM_SMELL
    | TAGGING_SMELL
    | DATE_AS_DATE_TIME_SMELL
    | DATE_AS_STRING_SMELL
    | DATE_TIME_AS_STRING_SMELL
    | FLOATING_POINT_NUMBER_AS_STRING_SMELL
    | INTEGER_AS_FLOATING_POINT_NUMBER_SMELL
    | INTEGER_AS_STRING_SMELL
    | TIME_AS_STRING_SMELL
    | SUSPECT_CHARACTER_ENCODING_SMELL
    | ABBREVIATION_INCONSISTENCY_SMELL
    | CASING_INCONSISTENCY_SMELL
    | CLASS_INCONSISTENCY_SMELL
    | DATE_TIME_FORMAT_INCONSISTENCY_SMELL
    | MISSING_VALUE_INCONSISTENCY_SMELL
    | SEPARATING_INCONSISTENCY_SMELL
    | SPACING_INCONSISTENCY_SMELL
    | SPECIAL_CHARACTER_INCONSISTENCY_SMELL
    | SYNTAX_INCONSISTENCY_SMELL
    | UNIT_INCONSISTENCY_SMELL
    | TRANSPOSITION_INCONSISTENCY_SMELL

  /**
   * A dynamically typed Python value as it appears in kwargs and in cell
   * data: `Int` is a Python `int`, `Num` a Python `float`.
   */
  datatype Value = Str(s: string) | Int(i: int) | Num(x: real) | Bool(b: bool) | NoneValue

  datatype DetectionStatistics = DetectionStatistics(totalElementCount: int, faultyElementCount: int)

  datatype DetectionResult = DetectionResult(
    dataSmellType: DataSmellType,
    columnName: string,
    statistics: DetectionStatistics,
    faultyElements: seq<Value>)
}
