/**
 * The JSON reader both float-array converters consume, as a sequence of
 * tokens: the converter is handed the reader positioned on the first one,
 * and each read moves to the next until the input is exhausted.
 */
module JsonTokens {
  import Rounding

  datatype Token = StartArray | EndArray | Number(value: real) | Other

  /**
   * The exceptions a conversion can end in: a malformed array, a token that
   * is not a number where one is read, and a write past the end of a
   * fixed-size buffer.
   */
  datatype ReadError = JsonException | InvalidOperation | IndexOutOfRange

  /** The end of the run of number tokens that starts at position `i`. */
  function NumbersEnd(tokens: seq<Token>, i: nat): (k: nat)
    requires i <= |tokens|
    ensures i <= k <= |tokens|
    ensures forall j :: i <= j < k ==> tokens[j].Number?
    ensures k < |tokens| ==> !tokens[k].Number?
    decreases |tokens| - i
  {
    if i == |tokens| || !tokens[i].Number? then i else NumbersEnd(tokens, i + 1)
  }

  /** The values of the number tokens in positions `i` to `k`, in order. */
  function NumberValues(tokens: seq<Token>, i: nat, k: nat): (vs: seq<real>)
    requires i <= k <= |tokens|
    requires forall j :: i <= j < k ==> tokens[j].Number?
    ensures |vs| == k - i && forall j :: 0 <= j < k - i ==> vs[j] == tokens[i + j].value
  {
    seq(k - i, j requires 0 <= j < k - i => tokens[i + j].value)
  }

  /** `(float)Math.Round(v, 2)` applied to every value, in order. */
  function RoundAll(vs: seq<real>): (r: seq<real>)
    ensures |r| == |vs| && forall j :: 0 <= j < |vs| ==> r[j] == Rounding.Round2(vs[j])
  {
    seq(|vs|, j requires 0 <= j < |vs| => Rounding.Round2(vs[j]))
  }
}
