/**
 * The string filter operators, how many values each takes and which offer a
 * case-sensitivity toggle (StringFilterPicker/constants.ts).
 */
module StringFilterConstants {
  import opened Wrappers

  datatype StringOperator =
    | Equal | NotEqual | Contains | DoesNotContain
    | StartsWith | EndsWith | IsEmpty | NotEmpty

  /** The operator's key in the `OPERATOR_OPTIONS` record. */
  function Key(op: StringOperator): string {
    match op
    case Equal => "="
    case NotEqual => "!="
    case Contains => "contains"
    case DoesNotContain => "does-not-contain"
    case StartsWith => "starts-with"
    case EndsWith => "ends-with"
    case IsEmpty => "is-empty"
    case NotEmpty => "not-empty"
  }

  /** The operator whose key is `name`, if `name` is an own key of the `OPERATOR_OPTIONS` record. */
  function OperatorNamed(name: string): (op: Option<StringOperator>)
    ensures op.Some? ==> Key(op.value) == name
  {
    if name == "=" then Some(Equal)
    else if name == "!=" then Some(NotEqual)
    else if name == "contains" then Some(Contains)
    else if name == "does-not-contain" then Some(DoesNotContain)
    else if name == "starts-with" then Some(StartsWith)
    else if name == "ends-with" then Some(EndsWith)
    else if name == "is-empty" then Some(IsEmpty)
    else if name == "not-empty" then Some(NotEmpty)
    else None
  }

  /** `{ operator, valueCount?, hasCaseSensitiveOption? }`. */
  datatype OperatorOption = OperatorOption(
    operator: string,
    valueCount: Option<nat>,
    hasCaseSensitiveOption: Option<bool>)

  /** The `OPERATOR_OPTIONS` record, one entry per operator. */
  function OperatorOptions(op: StringOperator): (option: OperatorOption)
    ensures option.operator == Key(op)
    ensures option.valueCount.None? <==> op == Equal || op == NotEqual
    ensures option.valueCount == Some(1) <==>
      op == Contains || op == DoesNotContain || op == StartsWith || op == EndsWith
    ensures option.valueCount == Some(0) <==> op == IsEmpty || op == NotEmpty
    ensures option.hasCaseSensitiveOption == Some(true) <==> option.valueCount == Some(1)
    ensures option.hasCaseSensitiveOption.Some? ==> option.valueCount == Some(1)
  {
    match op
    case Equal => OperatorOption("=", None, None)
    case NotEqual => OperatorOption("!=", None, None)
    case Contains => OperatorOption("contains", Some(1), Some(true))
    case DoesNotContain => OperatorOption("does-not-contain", Some(1), Some(true))
    case StartsWith => OperatorOption("starts-with", Some(1), Some(true))
    case EndsWith => OperatorOption("ends-with", Some(1), Some(true))
    case IsEmpty => OperatorOption("is-empty", Some(0), None)
    case NotEmpty => OperatorOption("not-empty", Some(0), None)
  }

  /** The record's keys, in declaration order. */
  const OPERATORS: seq<StringOperator> :=
    [Equal, NotEqual, Contains, DoesNotContain, StartsWith, EndsWith, IsEmpty, NotEmpty]

  /** The record has exactly eight entries, with distinct keys, one per operator. */
  lemma EightOperators()
    ensures |OPERATORS| == 8
    ensures forall op: StringOperator :: op in OPERATORS
    ensures forall i, j :: 0 <= i < j < |OPERATORS| ==> Key(OPERATORS[i]) != Key(OPERATORS[j])
  {
    forall op: StringOperator ensures op in OPERATORS {
      match op
      case Equal => assert OPERATORS[0] == op;
      case NotEqual => assert OPERATORS[1] == op;
      case Contains => assert OPERATORS[2] == op;
      case DoesNotContain => assert OPERATORS[3] == op;
      case StartsWith => assert OPERATORS[4] == op;
      case EndsWith => assert OPERATORS[5] == op;
      case IsEmpty => assert OPERATORS[6] == op;
      case NotEmpty => assert OPERATORS[7] == op;
    }
  }

  /** Looking an operator up by its own key finds it. */
  lemma KeyRoundTrip(op: StringOperator)
    ensures OperatorNamed(Key(op)) == Some(op)
  {
  }
}
