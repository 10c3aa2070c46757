/** The fragment of JavaScript value semantics the session code relies on:
    truthiness of possibly-missing strings, `xs && xs[0]` on a possibly-missing
    array, and a chain of `||` operators ending in a literal. */
module Js {
  import opened Wrappers

  /** A string-or-nullish value is truthy exactly when it is a non-empty string. */
  predicate Truthy(v: Option<string>) {
    v.Some? && v.value != ""
  }

  /** `xs && xs[0]`: a missing array short-circuits to a falsy value, an empty
      array yields `undefined`, otherwise the first element. */
  function Head(xs: Option<seq<string>>): (r: Option<string>)
    ensures Truthy(r) <==> xs.Some? && |xs.value| > 0 && xs.value[0] != ""
    ensures Truthy(r) ==> r.value == xs.value[0]
  {
    if xs.Some? && |xs.value| > 0 then Some(xs.value[0]) else None
  }

  /** Every operand before position `i` is falsy. */
  ghost predicate FalsyBefore(operands: seq<Option<string>>, i: int)
    requires 0 <= i <= |operands|
  {
    forall j :: 0 <= j < i ==> !Truthy(operands[j])
  }

  /** `operands[0] || operands[1] || ... || last`: the first truthy operand, or
      the final operand `last` when none of the others is truthy. */
  function FirstTruthy(operands: seq<Option<string>>, last: string): (r: string)
    ensures FalsyBefore(operands, |operands|) ==> r == last
    ensures forall i ::
              (0 <= i < |operands| && Truthy(operands[i]) && FalsyBefore(operands, i)) ==> r == operands[i].value
    ensures r == last || exists i :: 0 <= i < |operands| && Truthy(operands[i]) && r == operands[i].value
    ensures last != "" ==> r != ""
    decreases |operands|
  {
    if |operands| == 0 then last
    else if Truthy(operands[0]) then operands[0].value
    else FirstTruthy(operands[1..], last)
  }
}
