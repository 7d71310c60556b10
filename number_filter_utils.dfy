/** Resizing and validating the values of a numeric filter (NumberFilterPicker/utils.ts). */
module NumberFilterUtils {
  import opened Wrappers
  import opened NumberFilterConstants

  /** An entry of a `(number | "")[]` list; `Blank` is the empty input `""`. */
  datatype NumberValue = Number(n: real) | Blank

  /** `values[index]`: `undefined` past the end of the list. */
  function ValueAt(values: seq<NumberValue>, index: nat): Option<NumberValue> {
    if index < |values| then Some(values[index]) else None
  }

  /**
   * The value list resized to the operator's arity: the input's entries
   * where they exist, `""` after them. An operator without a fixed arity
   * keeps the input's length; a missing input is `[]`.
   */
  function GetDefaultValues(operator: NumberOperator, values: Option<seq<NumberValue>>): (result: seq<NumberValue>)
    ensures var input := values.GetOr([]);
      && |result| == OperatorOptions(operator).valueCount.GetOr(|input|)
      && (forall i :: 0 <= i < |result| && i < |input| ==> result[i] == input[i])
      && (forall i :: |input| <= i < |result| ==> result[i] == Blank)
  {
    var input := values.GetOr([]);
    var valueCount := OperatorOptions(operator).valueCount.GetOr(|input|);
    var filled := seq(valueCount, _ => Blank);
    seq(valueCount, index requires 0 <= index < valueCount => ValueAt(input, index).GetOr(filled[index]))
  }

  /** `values.every(value => value !== "")`. */
  function Every(values: seq<NumberValue>): (ok: bool)
    ensures ok <==> forall i :: 0 <= i < |values| ==> values[i] != Blank
  {
    values == [] || (values[0] != Blank && Every(values[1..]))
  }

  /** The list can be submitted: at least the arity (1 by default) many entries, none blank. */
  function HasValidValues(operator: NumberOperator, values: seq<NumberValue>): (ok: bool)
    ensures ok <==>
      && |values| >= OperatorOptions(operator).valueCount.GetOr(1)
      && forall i :: 0 <= i < |values| ==> values[i] != Blank
  {
    var valueCount := OperatorOptions(operator).valueCount.GetOr(1);
    |values| >= valueCount && Every(values)
  }

  /** Resizing an already resized list changes nothing. */
  lemma GetDefaultValuesIdempotent(operator: NumberOperator, values: Option<seq<NumberValue>>)
    ensures var once := GetDefaultValues(operator, values);
      GetDefaultValues(operator, Some(once)) == once
  {
    var once := GetDefaultValues(operator, values);
    var twice := GetDefaultValues(operator, Some(once));
    assert |twice| == |once|;
    forall i | 0 <= i < |once| ensures twice[i] == once[i] { }
  }

  /**
   * A resized list is valid exactly when the input already held at least
   * the resized length of entries, that length meets the arity (1 by
   * default), and none of those entries is blank.
   */
  lemma DefaultValuesValidity(operator: NumberOperator, values: seq<NumberValue>)
    ensures var n := OperatorOptions(operator).valueCount.GetOr(|values|);
      HasValidValues(operator, GetDefaultValues(operator, Some(values))) <==>
        && |values| >= n
        && n >= OperatorOptions(operator).valueCount.GetOr(1)
        && forall i :: 0 <= i < n ==> values[i] != Blank
  {
    var result := GetDefaultValues(operator, Some(values));
    var n := |result|;
    if |values| >= n {
      forall i | 0 <= i < n ensures result[i] == values[i] { }
    } else {
      assert result[|values|] == Blank;
    }
  }

  /** A zero-arity operator (`is-null`, `not-null`) is always valid after resizing. */
  lemma ZeroArityDefaultsAreValid(operator: NumberOperator, values: Option<seq<NumberValue>>)
    requires OperatorOptions(operator).valueCount == Some(0)
    ensures GetDefaultValues(operator, values) == []
    ensures HasValidValues(operator, GetDefaultValues(operator, values))
  {
  }
}
