/**
 * The variable-length float-array converter: every number up to the closing
 * bracket is collected, and the list is rounded to two decimals at the end.
 */
module ObjectFormatter {
  import opened Wrappers
  import opened JsonTokens

  /** The loop from position `i` on, with the raw values collected so far. */
  function Scan(tokens: seq<Token>, i: nat, values: seq<real>): Result<seq<real>, ReadError>
    requires i <= |tokens|
    decreases |tokens| - i
  {
    if i == |tokens| then Failure(JsonException)
    else if tokens[i] == EndArray then Success(RoundAll(values))
    else if !tokens[i].Number? then Failure(InvalidOperation)
    else Scan(tokens, i + 1, values + [tokens[i].value])
  }

  /** What `RoundFloatArrayConverter.Read` returns or throws for the tokens. */
  function Converted(tokens: seq<Token>): Result<seq<real>, ReadError>
  {
    if tokens == [] || tokens[0] != StartArray then Failure(JsonException)
    else Scan(tokens, 1, [])
  }

  /**
   * The loop reads the run of numbers after the opening bracket; what follows
   * the run decides the outcome: nothing (the input ran out), the closing
   * bracket (the rounded values), or any other token (not a number).
   */
  lemma {:induction false} ScanReadsNumbers(tokens: seq<Token>, i: nat, values: seq<real>)
    requires i <= |tokens|
    ensures var k := NumbersEnd(tokens, i);
            Scan(tokens, i, values)
            == if k == |tokens| then Failure(JsonException)
               else if tokens[k] == EndArray then Success(RoundAll(values + NumberValues(tokens, i, k)))
               else Failure(InvalidOperation)
    decreases |tokens| - i
  {
    var k := NumbersEnd(tokens, i);
    if i < |tokens| && tokens[i].Number? {
      ScanReadsNumbers(tokens, i + 1, values + [tokens[i].value]);
      assert values + [tokens[i].value] + NumberValues(tokens, i + 1, k) == values + NumberValues(tokens, i, k);
    } else {
      assert values + NumberValues(tokens, i, k) == values;
    }
  }

  /**
   * The outcome of a conversion: a first token other than `[` and an input
   * that ends before `]` are JSON errors; a non-number inside the array is
   * an invalid read; otherwise the result holds one rounded value per number
   * before `]`, in order.
   */
  lemma Outcome(tokens: seq<Token>)
    ensures tokens == [] || tokens[0] != StartArray ==> Converted(tokens) == Failure(JsonException)
    ensures tokens != [] && tokens[0] == StartArray ==>
              var k := NumbersEnd(tokens, 1);
              Converted(tokens)
              == if k == |tokens| then Failure(JsonException)
                 else if tokens[k] == EndArray then Success(RoundAll(NumberValues(tokens, 1, k)))
                 else Failure(InvalidOperation)
  {
    if tokens != [] && tokens[0] == StartArray {
      ScanReadsNumbers(tokens, 1, []);
      assert [] + NumberValues(tokens, 1, NumbersEnd(tokens, 1)) == NumberValues(tokens, 1, NumbersEnd(tokens, 1));
    }
  }

  /** An empty array converts to an empty result. */
  lemma EmptyArray()
    ensures Converted([StartArray, EndArray]) == Success([])
  {
  }

  /** `RoundFloatArrayConverter.Read`, the reader positioned on the first token. */
  method Read(tokens: seq<Token>) returns (r: Result<seq<real>, ReadError>)
    ensures r == Converted(tokens)
  {
    if tokens == [] || tokens[0] != StartArray {
      return Failure(JsonException);
    }
    var values: seq<real> := [];
    var position := 1;
    while position < |tokens|
      invariant 1 <= position <= |tokens|
      invariant Converted(tokens) == Scan(tokens, position, values)
      decreases |tokens| - position
    {
      if tokens[position] == EndArray {
        return Success(RoundAll(values));
      }
      if !tokens[position].Number? {
        return Failure(InvalidOperation);
      }
      var value := tokens[position].value;
      values := values + [value];
      position := position + 1;
    }
    return Failure(JsonException);
  }
}
