/**
 Mapping documents, the target schema they write to, and the issues an import
 reports. An issue keeps its severity, the place it points at, its line and a
 `Reason`: the reason decides the stable code, and stands for the message.
 */
module Mappings {
  import opened Values
  import opened JsonPath

  /** An operator is a JSON object: its `op` name and its parameters. */
  type Operator = map<string, Value>

  datatype FieldRule = FieldRule(target: string, source: string, required: bool, operators: seq<Operator>)

  datatype EntityMapping = EntityMapping(
    target: string,
    naturalKey: seq<string>,
    fields: seq<FieldRule>,
    iterate: Option<string>)
  {
    /** `iterate` is tested for truthiness: an empty text is no iteration. */
    predicate Iterated() {
      iterate.Some? && iterate.value != ""
    }
  }

  type Mapping = seq<EntityMapping>

  // ---------------------------------------------------------- target schema

  datatype TargetType = Text | Whole | Instant

  predicate KnownTarget(target: string) {
    target == "session" || target == "model_call" || target == "tool_call"
  }

  /** `TARGET_FIELD_TYPES`: None for a field the schema does not have. */
  function FieldType(target: string, field: string): Option<TargetType> {
    if target == "session" then SessionField(field)
    else if target == "model_call" then ModelCallField(field)
    else if target == "tool_call" then ToolCallField(field)
    else None
  }

  function SessionField(field: string): Option<TargetType> {
    if field in ["external_id", "agent_name", "outcome"] then Some(Text)
    else if field in ["started_at", "ended_at"] then Some(Instant)
    else if field == "duration_ms" then Some(Whole)
    else None
  }

  function ModelCallField(field: string): Option<TargetType> {
    if field in ["model_name", "provider_name", "stop_reason", "status", "error_code"] then Some(Text)
    else if field == "started_at" then Some(Instant)
    else if field in ["sequence_index", "input_tokens", "output_tokens", "cache_read_tokens",
                      "cache_creation_tokens", "duration_ms"] then Some(Whole)
    else None
  }

  function ToolCallField(field: string): Option<TargetType> {
    if field in ["tool_name", "status", "error_message"] then Some(Text)
    else if field == "started_at" then Some(Instant)
    else if field in ["sequence_index", "duration_ms"] then Some(Whole)
    else None
  }

  /** Whether a value is of its field's declared type; a field outside the
      schema accepts anything. A boolean is never a whole number. */
  predicate HasTargetType(target: string, field: string, v: Value) {
    match FieldType(target, field)
    case None => true
    case Some(Text) => v.Str?
    case Some(Whole) => v.Int?
    case Some(Instant) => v.DateTime?
  }

  // ----------------------------------------------------------------- issues

  datatype Severity = Rejected | Duplicate | Warning

  datatype Place =
    | Nowhere
    | IterateOf(target: string)
    | FieldOf(target: string, field: string)
    | SourceOf(target: string, field: string)

  /** Why an operator, or the lookup before it, gave no value. */
  datatype Failure =
    | UnsupportedPath(path: PathError)
    | UnknownOperator
    | MissingParameter(parameter: string)
    | BadParameter(parameter: string)
    | UnknownCastTarget
    | UnknownUnits
    | UnknownAlgorithm
    | CastFailed
    | DatetimeUnreadable
    | OperatorFailed
    | ExtractorMissing
    | ExtractorRefused

  /** The failures that are the mapping's own fault, whatever the record holds. */
  predicate MappingFault(f: Failure) {
    f.UnsupportedPath? || f.UnknownOperator? || f.MissingParameter? || f.BadParameter?
    || f.UnknownCastTarget? || f.UnknownUnits? || f.UnknownAlgorithm?
  }

  datatype Reason =
    | Operation(failure: Failure)
    | IterateUnsupported(path: PathError)
    | IterateNotAList(wrong: seq<Mismatch>)
    | TypeMismatch
    | MissingRequiredField
    | MissingNaturalKey(keys: seq<string>)
    | NameInvalid
    | ConstructionFailed
    | ParentMissing(rows: nat)
    | SessionsIgnored(rows: nat)
    | ReferenceUnresolved
    | AlreadyImported(rows: nat)
    | CallsUnlinked(rows: nat)

  datatype Issue = Issue(severity: Severity, reason: Reason, place: Place, line: Option<nat>)

  function FailureCode(f: Failure): string {
    match f
    case UnsupportedPath(_) => "MAPPING_UNSUPPORTED_PATH"
    case UnknownCastTarget => "CAST_FAILED"
    case CastFailed => "CAST_FAILED"
    case DatetimeUnreadable => "DATETIME_PARSE_FAILED"
    case BadParameter(parameter) => if parameter == "format" then "DATETIME_PARSE_FAILED" else "OPERATOR_FAILED"
    case ExtractorMissing => "REGEX_EXTRACTOR_NOT_CONFIGURED"
    case ExtractorRefused => "INVALID_OPERATOR_PARAM"
    case UnknownOperator => "OPERATOR_FAILED"
    case MissingParameter(_) => "OPERATOR_FAILED"
    case UnknownUnits => "OPERATOR_FAILED"
    case UnknownAlgorithm => "OPERATOR_FAILED"
    case OperatorFailed => "OPERATOR_FAILED"
  }

  /** The stable machine-readable code of an issue. */
  function Code(reason: Reason): string {
    match reason
    case Operation(failure) => FailureCode(failure)
    case IterateUnsupported(_) => "MAPPING_UNSUPPORTED_PATH"
    case IterateNotAList(_) => "ITERATE_NOT_A_LIST"
    case TypeMismatch => "TYPE_MISMATCH"
    case MissingRequiredField => "MISSING_REQUIRED_FIELD"
    case MissingNaturalKey(_) => "MAPPING_MISSING_NATURAL_KEY"
    case NameInvalid => "REFERENCE_NAME_INVALID"
    case ConstructionFailed => "ENTITY_CONSTRUCTION_FAILED"
    case ParentMissing(_) => "PARENT_SESSION_MISSING"
    case SessionsIgnored(_) => "MULTIPLE_SESSIONS_IGNORED"
    case ReferenceUnresolved => "REFERENCE_UNRESOLVED"
    case AlreadyImported(_) => "ALREADY_IMPORTED"
    case CallsUnlinked(_) => "PARENT_SESSION_MISSING"
  }

  // ---------------------------------------------------------------- runtime

  /** `int()` and `float()` raise ValueError on what they cannot read, and
      OverflowError on a number out of range; the callers tell them apart. */
  datatype Conversion<+T> = Converted(value: T) | Malformed | Overflowed

  /** A library call in a `try`: it answers, it raises what the `except` clause
      names, or it raises something else. */
  datatype Probe<+T> = Answered(value: T) | Declined | Uncaught

  /** The library functions an import calls, left uninterpreted. `dateFormat` and
      `groups` are the syntax probes of the validator, `strptime` on an empty
      text and `re.compile`. A format is declined when the exception's message
      speaks of a bad or stray directive, as that of a literal format that holds
      those words does too. `keys` is the order an object is walked in. */
  datatype Runtime = Runtime(
    text: Value -> string,
    isSpace: char -> bool,
    lower: string -> string,
    upper: string -> string,
    toInt: Value -> Conversion<int>,
    toFloat: Value -> Conversion<Number>,
    instant: (Value, string) -> Probe<int>,
    keys: map<string, Value> -> seq<string>,
    digest: map<string, Value> -> Option<string>,
    dateFormat: string -> Probe<()>,
    groups: string -> Probe<nat>,
    extractor: Option<(string, string, int) -> Conversion<Option<string>>>)
  {
    /** `str(v)`. */
    function TextOf(v: Value): string {
      if v.Str? then v.s else text(v)
    }

    /** `str.strip`, with the runtime's notion of white space. */
    function LeftStrip(s: string): (r: string)
      ensures |r| <= |s|
      ensures r != [] ==> !isSpace(r[0])
    {
      if s != [] && isSpace(s[0]) then LeftStrip(s[1..]) else s
    }

    function RightStrip(s: string): (r: string)
      ensures |r| <= |s|
    {
      if s != [] && isSpace(s[|s| - 1]) then RightStrip(s[..|s| - 1]) else s
    }

    function Strip(s: string): string {
      RightStrip(LeftStrip(s))
    }

    predicate Blank(s: string) {
      Strip(s) == []
    }
  }

  /** Python's `round`: to the nearest integer, ties to the even one. */
  function Round(r: real): (n: int)
    ensures -0.5 <= r - n as real <= 0.5
  {
    var low := r.Floor;
    var part := r - low as real;
    if part < 0.5 || (part == 0.5 && low % 2 == 0) then low else low + 1
  }
}
