/**
 * TokenGenerator.generateToken: six draws of secureRandom.nextInt(16), each appended
 * to a StringBuilder as one hexadecimal digit. The random source is not modelled:
 * the six draws are the method's input, in the order they are drawn.
 */
module TokenGenerator {
  import opened HexDigits

  const CodeLength: nat := 6

  /** Every draw lies in [0, 16), the range of nextInt(RANDOM_INTEGER_RANGE). */
  predicate AllDraws(draws: seq<int>) {
    forall i :: 0 <= i < |draws| ==> IsNibble(draws[i])
  }

  predicate AllLowerHex(s: string) {
    forall i :: 0 <= i < |s| ==> IsLowerHexDigit(s[i])
  }

  /** The token the draws spell: one digit per draw, in draw order. */
  function TokenOf(draws: seq<int>): (token: string)
    requires AllDraws(draws)
    ensures |token| == |draws|
  {
    if draws == [] then "" else [HexDigit(draws[0])] + TokenOf(draws[1..])
  }

  /** The draws a token was spelled from. */
  function DrawsOf(token: string): (draws: seq<int>)
    requires AllLowerHex(token)
    ensures |draws| == |token|
    ensures AllDraws(draws)
  {
    if token == "" then [] else [HexValue(token[0])] + DrawsOf(token[1..])
  }

  /** Character k of the token is the digit of draw k. */
  lemma {:induction false} TokenOfAt(draws: seq<int>, k: int)
    requires AllDraws(draws)
    requires 0 <= k < |draws|
    ensures TokenOf(draws)[k] == HexDigit(draws[k])
  {
    if k > 0 {
      TokenOfAt(draws[1..], k - 1);
    }
  }

  /** Every character of a token is a lower-case hexadecimal digit. */
  lemma TokenOfIsLowerHex(draws: seq<int>)
    requires AllDraws(draws)
    ensures AllLowerHex(TokenOf(draws))
  {
    forall i | 0 <= i < |draws|
      ensures IsLowerHexDigit(TokenOf(draws)[i])
    {
      TokenOfAt(draws, i);
    }
  }

  /** Decoding a token gives back the draws it was built from. */
  lemma {:induction false} DrawsOfTokenOf(draws: seq<int>)
    requires AllDraws(draws)
    ensures AllLowerHex(TokenOf(draws))
    ensures DrawsOf(TokenOf(draws)) == draws
  {
    TokenOfIsLowerHex(draws);
    if draws != [] {
      var token := TokenOf(draws);
      DrawsOfTokenOf(draws[1..]);
      HexValueOfDigit(draws[0]);
      assert token[1..] == TokenOf(draws[1..]);
    }
  }

  /** Distinct draw sequences give distinct tokens, and equal ones equal tokens. */
  lemma TokenOfInjective(d1: seq<int>, d2: seq<int>)
    requires AllDraws(d1) && AllDraws(d2)
    ensures TokenOf(d1) == TokenOf(d2) <==> d1 == d2
  {
    if TokenOf(d1) == TokenOf(d2) {
      DrawsOfTokenOf(d1);
      DrawsOfTokenOf(d2);
    }
  }

  /** generateToken: the loop appends one digit per draw to the builder. */
  method GenerateToken(draws: seq<int>) returns (token: string)
    requires |draws| == CodeLength && AllDraws(draws)
    ensures |token| == CodeLength
    ensures forall i :: 0 <= i < CodeLength ==> token[i] == HexDigit(draws[i])
    ensures AllLowerHex(token)
    ensures token == TokenOf(draws)
  {
    token := "";
    for i := 0 to CodeLength
      invariant |token| == i
      invariant forall k :: 0 <= k < i ==> token[k] == HexDigit(draws[k])
    {
      var randomValue := draws[i];
      token := token + [HexDigit(randomValue)];
    }
    forall k | 0 <= k < CodeLength
      ensures token[k] == TokenOf(draws)[k]
    {
      TokenOfAt(draws, k);
    }
  }
}
