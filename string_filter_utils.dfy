/** Resizing and validating the values of a string filter (StringFilterPicker/utils.ts). */
module StringFilterUtils {
  import opened Wrappers
  import opened StringFilterConstants

  /** `values[index]`: `undefined` past the end of the list. */
  function ValueAt(values: seq<string>, index: nat): Option<string> {
    if index < |values| then Some(values[index]) else None
  }

  /**
   * The value list resized to the operator's arity: the input's entries
   * where they exist, `""` after them. An operator without a fixed arity
   * keeps the input's length; a missing input is `[]`.
   */
  function GetDefaultValues(operator: StringOperator, values: Option<seq<string>>): (result: seq<string>)
    ensures var input := values.GetOr([]);
      && |result| == OperatorOptions(operator).valueCount.GetOr(|input|)
      && (forall i :: 0 <= i < |result| && i < |input| ==> result[i] == input[i])
      && (forall i :: |input| <= i < |result| ==> result[i] == "")
  {
    var input := values.GetOr([]);
    var valueCount := OperatorOptions(operator).valueCount.GetOr(|input|);
    var filled := seq(valueCount, _ => "");
    seq(valueCount, index requires 0 <= index < valueCount => ValueAt(input, index).GetOr(filled[index]))
  }

  /** `values.every(value => value.length > 0)`. */
  function Every(values: seq<string>): (ok: bool)
    ensures ok <==> forall i :: 0 <= i < |values| ==> |values[i]| > 0
  {
    values == [] || (|values[0]| > 0 && Every(values[1..]))
  }

  /** The list can be submitted: at least the arity (1 by default) many entries, none empty. */
  function HasValidValues(operator: StringOperator, values: seq<string>): (ok: bool)
    ensures ok <==>
      && |values| >= OperatorOptions(operator).valueCount.GetOr(1)
      && forall i :: 0 <= i < |values| ==> |values[i]| > 0
  {
    var valueCount := OperatorOptions(operator).valueCount.GetOr(1);
    |values| >= valueCount && Every(values)
  }

  /** Resizing an already resized list changes nothing. */
  lemma GetDefaultValuesIdempotent(operator: StringOperator, values: Option<seq<string>>)
    ensures var once := GetDefaultValues(operator, values);
      GetDefaultValues(operator, Some(once)) == once
  {
    var once := GetDefaultValues(operator, values);
    var twice := GetDefaultValues(operator, Some(once));
    assert |twice| == |once|;
    forall i | 0 <= i < |once| ensures twice[i] == once[i] { }
  }

  /**
   * A resized list is valid exactly when the input already held at least
   * the resized length of entries, that length meets the arity (1 by
   * default), and none of those entries is empty.
   */
  lemma DefaultValuesValidity(operator: StringOperator, values: seq<string>)
    ensures var n := OperatorOptions(operator).valueCount.GetOr(|values|);
      HasValidValues(operator, GetDefaultValues(operator, Some(values))) <==>
        && |values| >= n
        && n >= OperatorOptions(operator).valueCount.GetOr(1)
        && forall i :: 0 <= i < n ==> |values[i]| > 0
  {
    var result := GetDefaultValues(operator, Some(values));
    var n := |result|;
    if |values| >= n {
      forall i | 0 <= i < n ensures result[i] == values[i] { }
    } else {
      assert result[|values|] == "";
    }
  }

  /** `=` and `!=` need at least one value: the empty list is rejected. */
  lemma EqualityRejectsEmptyList(operator: StringOperator)
    requires operator == Equal || operator == NotEqual
    ensures !HasValidValues(operator, [])
    ensures !HasValidValues(operator, GetDefaultValues(operator, None))
  {
  }

  /** A zero-arity operator (`is-empty`, `not-empty`) is always valid after resizing. */
  lemma ZeroArityDefaultsAreValid(operator: StringOperator, values: Option<seq<string>>)
    requires OperatorOptions(operator).valueCount == Some(0)
    ensures GetDefaultValues(operator, values) == []
    ensures HasValidValues(operator, GetDefaultValues(operator, values))
  {
  }
}
