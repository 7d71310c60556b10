/** The numeric filter operators and how many values each takes (NumberFilterPicker/constants.ts). */
module NumberFilterConstants {
  import opened Wrappers

  datatype NumberOperator =
    | Equal | NotEqual | GreaterThan | LessThan | Between
    | GreaterOrEqual | LessOrEqual | IsNull | NotNull

  /** The operator's key in the `OPERATOR_OPTIONS` record. */
  function Key(op: NumberOperator): string {
    match op
    case Equal => "="
    case NotEqual => "!="
    case GreaterThan => ">"
    case LessThan => "<"
    case Between => "between"
    case GreaterOrEqual => ">="
    case LessOrEqual => "<="
    case IsNull => "is-null"
    case NotNull => "not-null"
  }

  /** The operator whose key is `name`, if `name` is an own key of the `OPERATOR_OPTIONS` record. */
  function OperatorNamed(name: string): (op: Option<NumberOperator>)
    ensures op.Some? ==> Key(op.value) == name
  {
    if name == "=" then Some(Equal)
    else if name == "!=" then Some(NotEqual)
    else if name == ">" then Some(GreaterThan)
    else if name == "<" then Some(LessThan)
    else if name == "between" then Some(Between)
    else if name == ">=" then Some(GreaterOrEqual)
    else if name == "<=" then Some(LessOrEqual)
    else if name == "is-null" then Some(IsNull)
    else if name == "not-null" then Some(NotNull)
    else None
  }

  /** `{ operator, valueCount? }`. */
  datatype OperatorOption = OperatorOption(operator: string, valueCount: Option<nat>)

  /** The `OPERATOR_OPTIONS` record, one entry per operator. */
  function OperatorOptions(op: NumberOperator): (option: OperatorOption)
    ensures option.operator == Key(op)
    ensures option.valueCount.None? <==> op == Equal || op == NotEqual
    ensures option.valueCount == Some(1) <==>
      op == GreaterThan || op == LessThan || op == GreaterOrEqual || op == LessOrEqual
    ensures option.valueCount == Some(2) <==> op == Between
    ensures option.valueCount == Some(0) <==> op == IsNull || op == NotNull
  {
    match op
    case Equal => OperatorOption("=", None)
    case NotEqual => OperatorOption("!=", None)
    case GreaterThan => OperatorOption(">", Some(1))
    case LessThan => OperatorOption("<", Some(1))
    case Between => OperatorOption("between", Some(2))
    case GreaterOrEqual => OperatorOption(">=", Some(1))
    case LessOrEqual => OperatorOption("<=", Some(1))
    case IsNull => OperatorOption("is-null", Some(0))
    case NotNull => OperatorOption("not-null", Some(0))
  }

  /** The record's keys, in declaration order. */
  const OPERATORS: seq<NumberOperator> :=
    [Equal, NotEqual, GreaterThan, LessThan, Between, GreaterOrEqual, LessOrEqual, IsNull, NotNull]

  /** The record has exactly nine entries, with distinct keys, one per operator. */
  lemma NineOperators()
    ensures |OPERATORS| == 9
    ensures forall op: NumberOperator :: op in OPERATORS
    ensures forall i, j :: 0 <= i < j < |OPERATORS| ==> Key(OPERATORS[i]) != Key(OPERATORS[j])
  {
    forall op: NumberOperator ensures op in OPERATORS {
      match op
      case Equal => assert OPERATORS[0] == op;
      case NotEqual => assert OPERATORS[1] == op;
      case GreaterThan => assert OPERATORS[2] == op;
      case LessThan => assert OPERATORS[3] == op;
      case Between => assert OPERATORS[4] == op;
      case GreaterOrEqual => assert OPERATORS[5] == op;
      case LessOrEqual => assert OPERATORS[6] == op;
      case IsNull => assert OPERATORS[7] == op;
      case NotNull => assert OPERATORS[8] == op;
    }
  }

  /** Looking an operator up by its own key finds it. */
  lemma KeyRoundTrip(op: NumberOperator)
    ensures OperatorNamed(Key(op)) == Some(op)
  {
  }
}
