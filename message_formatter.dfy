/**
 * The fixed-size float-array converter: the numbers up to the closing
 * bracket are rounded to two decimals into a buffer of four slots, which is
 * returned whole, so a box with fewer numbers keeps zeros in the remaining
 * slots and a fifth number writes past the end of the buffer.
 */
module MessageFormatter {
  import opened Wrappers
  import opened JsonTokens
  import Rounding
  import ObjectFormatter

  const Slots: nat := 4

  /** The loop from position `i` on; the numbers before it filled slots 0 to `i - 2`. */
  function Scan(tokens: seq<Token>, i: nat, values: seq<real>): Result<seq<real>, ReadError>
    requires 1 <= i <= |tokens| && |values| == Slots
    decreases |tokens| - i
  {
    if i == |tokens| then Failure(JsonException)
    else if tokens[i] == EndArray then Success(values)
    else if !tokens[i].Number? then Failure(InvalidOperation)
    else if i - 1 >= Slots then Failure(IndexOutOfRange)
    else Scan(tokens, i + 1, values[i - 1 := Rounding.Round2(tokens[i].value)])
  }

  /** What `RoundFloatArrayConverter.Read` returns or throws for the tokens. */
  function Converted(tokens: seq<Token>): Result<seq<real>, ReadError>
  {
    if tokens == [] || tokens[0] != StartArray then Failure(JsonException)
    else Scan(tokens, 1, [0.0, 0.0, 0.0, 0.0])
  }

  /** `vs` followed by zeros up to four slots. */
  function Padded(vs: seq<real>): (r: seq<real>)
    requires |vs| <= Slots
    ensures |r| == Slots
    ensures forall j :: 0 <= j < |vs| ==> r[j] == vs[j]
    ensures forall j :: |vs| <= j < Slots ==> r[j] == 0.0
  {
    vs + seq(Slots - |vs|, _ => 0.0)
  }

  /**
   * The outcome of reading the run of numbers that starts at `i`, the slots
   * before it holding `filled`: a fifth number overflows the buffer before
   * anything after it is looked at; otherwise what follows the run decides,
   * as for the variable-length converter, and a success returns the buffer
   * with the run's rounded values after the slots already filled.
   */
  function RunOutcome(tokens: seq<Token>, i: nat, filled: seq<real>): Result<seq<real>, ReadError>
    requires 1 <= i <= |tokens| && |filled| == i - 1
  {
    var k := NumbersEnd(tokens, i);
    if k - 1 > Slots then Failure(IndexOutOfRange)
    else if k == |tokens| then Failure(JsonException)
    else if tokens[k] == EndArray then Success(Padded(filled + RoundAll(NumberValues(tokens, i, k))))
    else Failure(InvalidOperation)
  }

  /** Moving one number from the run into the filled slots does not change the outcome. */
  lemma RunOutcomeStep(tokens: seq<Token>, i: nat, filled: seq<real>)
    requires 1 <= i < |tokens| && |filled| == i - 1 && tokens[i].Number?
    ensures RunOutcome(tokens, i + 1, filled + [Rounding.Round2(tokens[i].value)]) == RunOutcome(tokens, i, filled)
  {
    var k := NumbersEnd(tokens, i);
    var v := Rounding.Round2(tokens[i].value);
    var rest := RoundAll(NumberValues(tokens, i + 1, k));
    assert [v] + rest == RoundAll(NumberValues(tokens, i, k));
    assert filled + [v] + rest == filled + ([v] + rest);
  }

  /** The loop reads the run of numbers at `i` and then stops as `RunOutcome` says. */
  lemma {:induction false} ScanReadsNumbers(tokens: seq<Token>, i: nat, values: seq<real>)
    requires 1 <= i <= |tokens| && |values| == Slots && i - 1 <= Slots
    requires forall j :: i - 1 <= j < Slots ==> values[j] == 0.0
    ensures Scan(tokens, i, values) == RunOutcome(tokens, i, values[..i - 1])
    decreases |tokens| - i
  {
    var k := NumbersEnd(tokens, i);
    if i < |tokens| && tokens[i].Number? {
      if i - 1 < Slots {
        var next := values[i - 1 := Rounding.Round2(tokens[i].value)];
        ScanReadsNumbers(tokens, i + 1, next);
        assert next[..i] == values[..i - 1] + [Rounding.Round2(tokens[i].value)];
        RunOutcomeStep(tokens, i, values[..i - 1]);
      }
    } else {
      assert values[..i - 1] + RoundAll(NumberValues(tokens, i, k)) == values[..i - 1];
      assert Padded(values[..i - 1]) == values;
    }
  }

  /**
   * The outcome of a conversion: with at most four numbers before `]` the
   * result is their rounded values padded with zeros to four slots; a fifth
   * number is an index error whatever follows; otherwise the errors are
   * those of the variable-length converter.
   */
  lemma Outcome(tokens: seq<Token>)
    ensures tokens == [] || tokens[0] != StartArray ==> Converted(tokens) == Failure(JsonException)
    ensures tokens != [] && tokens[0] == StartArray ==>
              var k := NumbersEnd(tokens, 1);
              Converted(tokens)
              == if k - 1 > Slots then Failure(IndexOutOfRange)
                 else if k == |tokens| then Failure(JsonException)
                 else if tokens[k] == EndArray then Success(Padded(RoundAll(NumberValues(tokens, 1, k))))
                 else Failure(InvalidOperation)
  {
    if tokens != [] && tokens[0] == StartArray {
      var zeros := [0.0, 0.0, 0.0, 0.0];
      ScanReadsNumbers(tokens, 1, zeros);
      assert zeros[..0] == [];
      assert [] + RoundAll(NumberValues(tokens, 1, NumbersEnd(tokens, 1))) == RoundAll(NumberValues(tokens, 1, NumbersEnd(tokens, 1)));
    }
  }

  /**
   * The two converters agree up to the buffer: where the variable-length one
   * succeeds with at most four values the fixed one returns them padded with
   * zeros, with more values the fixed one fails on the fifth, and where the
   * variable-length one fails on an array of at most four numbers the fixed
   * one fails the same way.
   */
  lemma AgreesWithVariableLength(tokens: seq<Token>)
    ensures var v := ObjectFormatter.Converted(tokens);
            var f := Converted(tokens);
            (v.Success? && |v.value| <= Slots ==> f == Success(Padded(v.value)))
            && (v.Success? && |v.value| > Slots ==> f == Failure(IndexOutOfRange))
            && (tokens != [] && tokens[0] == StartArray && NumbersEnd(tokens, 1) - 1 <= Slots && v.Failure? ==> f == v)
            && (f.Success? ==> |f.value| == Slots)
  {
    Outcome(tokens);
    ObjectFormatter.Outcome(tokens);
  }

  /** `RoundFloatArrayConverter.Read`, the reader positioned on the first token. */
  method Read(tokens: seq<Token>) returns (r: Result<seq<real>, ReadError>)
    ensures r == Converted(tokens)
  {
    if tokens == [] || tokens[0] != StartArray {
      return Failure(JsonException);
    }
    var values := new real[Slots](_ => 0.0);
    assert values[..] == [0.0, 0.0, 0.0, 0.0];
    var index := 0;
    var position := 1;
    while position < |tokens|
      invariant 1 <= position <= |tokens| && index == position - 1 && index <= Slots
      invariant Converted(tokens) == Scan(tokens, position, values[..])
      decreases |tokens| - position
    {
      if tokens[position] == EndArray {
        return Success(values[..]);
      }
      if !tokens[position].Number? {
        return Failure(InvalidOperation);
      }
      var value := tokens[position].value;
      if index >= values.Length {
        return Failure(IndexOutOfRange);
      }
      values[index] := Rounding.Round2(value);
      index := index + 1;
      position := position + 1;
    }
    return Failure(JsonException);
  }
}
