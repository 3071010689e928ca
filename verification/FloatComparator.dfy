/**
 Token-wise comparison within an epsilon. Numbers are reals; parse stands for
 strconv.ParseFloat and is any function from tokens to numbers.
 */
module FloatComparator {
  import opened Options

  /** unicode.IsSpace. */
  predicate IsSpace(c: char) {
    || '\t' <= c <= '\r' || c == ' ' || c == '\U{0085}' || c == '\U{00A0}' || c == '\U{1680}'
    || '\U{2000}' <= c <= '\U{200a}' || c == '\U{2028}' || c == '\U{2029}' || c == '\U{202f}'
    || c == '\U{205f}' || c == '\U{3000}'
  }

  function WordLength(s: string): (n: nat)
    ensures n <= |s|
    ensures s != "" && !IsSpace(s[0]) ==> n > 0
  {
    if s == "" || IsSpace(s[0]) then 0 else 1 + WordLength(s[1..])
  }

  /** strings.Fields. */
  function Fields(s: string): seq<string> {
    if s == "" then []
    else if IsSpace(s[0]) then Fields(s[1..])
    else [s[..WordLength(s)]] + Fields(s[WordLength(s)..])
  }

  type Parser = string -> Option<real>

  function Abs(x: real): real {
    if x < 0.0 then -x else x
  }

  /** Both tokens are numbers within epsilon of each other, or they are the same text and not both numbers. */
  predicate TokensAgree(epsilon: real, parse: Parser, e: string, a: string) {
    if parse(e).Some? && parse(a).Some? then Abs(parse(e).value - parse(a).value) <= epsilon else e == a
  }

  predicate Agree(epsilon: real, parse: Parser, expected: string, actual: string) {
    var e, a := Fields(expected), Fields(actual);
    |e| == |a| && forall i :: 0 <= i < |e| ==> TokensAgree(epsilon, parse, e[i], a[i])
  }

  lemma AgreeSymmetric(epsilon: real, parse: Parser, a: string, b: string)
    ensures Agree(epsilon, parse, a, b) <==> Agree(epsilon, parse, b, a)
  {
    var x, y := Fields(a), Fields(b);
    assert forall i :: 0 <= i < |x| && i < |y| ==> (TokensAgree(epsilon, parse, x[i], y[i]) <==>
      TokensAgree(epsilon, parse, y[i], x[i]));
  }

  /** Every output agrees with itself exactly when epsilon is not negative, given that some token is a number. */
  lemma AgreeReflexiveIff(epsilon: real, parse: Parser, number: string)
    requires parse(number).Some? && Fields(number) == [number]
    ensures (forall s :: Agree(epsilon, parse, s, s)) <==> epsilon >= 0.0
  {
    if epsilon < 0.0 {
      assert !TokensAgree(epsilon, parse, Fields(number)[0], Fields(number)[0]);
      assert !Agree(epsilon, parse, number, number);
    }
  }

  lemma TokensCompose(e1: real, e2: real, parse: Parser, a: string, b: string, c: string)
    requires e1 >= 0.0 && e2 >= 0.0 && TokensAgree(e1, parse, a, b) && TokensAgree(e2, parse, b, c)
    ensures TokensAgree(e1 + e2, parse, a, c)
  {
  }

  /** Agreement composes: the epsilons add up, also across tokens that are not numbers. */
  lemma AgreeComposes(e1: real, e2: real, parse: Parser, a: string, b: string, c: string)
    requires e1 >= 0.0 && e2 >= 0.0 && Agree(e1, parse, a, b) && Agree(e2, parse, b, c)
    ensures Agree(e1 + e2, parse, a, c)
  {
    var x, y, z := Fields(a), Fields(b), Fields(c);
    forall i | 0 <= i < |x|
      ensures TokensAgree(e1 + e2, parse, x[i], z[i])
    {
      TokensCompose(e1, e2, parse, x[i], y[i], z[i]);
    }
  }

  /** A larger epsilon accepts more. */
  lemma AgreeMonotone(small: real, large: real, parse: Parser, a: string, b: string)
    requires small <= large && Agree(small, parse, a, b)
    ensures Agree(large, parse, a, b)
  {
    var x, y := Fields(a), Fields(b);
    forall i | 0 <= i < |x|
      ensures TokensAgree(large, parse, x[i], y[i])
    {
      assert TokensAgree(small, parse, x[i], y[i]);
    }
  }

  class FloatComparator {
    const epsilon: real

    constructor (epsilon: real)
      ensures this.epsilon == epsilon
    {
      this.epsilon := epsilon;
    }

    method Compare(parse: Parser, expected: string, actual: string) returns (equal: bool)
      ensures equal <==> Agree(epsilon, parse, expected, actual)
    {
      var expectedTokens, actualTokens := Fields(expected), Fields(actual);
      if |expectedTokens| != |actualTokens| {
        return false;
      }
      for i := 0 to |expectedTokens|
        invariant forall k :: 0 <= k < i ==> TokensAgree(epsilon, parse, expectedTokens[k], actualTokens[k])
      {
        var expVal, actVal := parse(expectedTokens[i]), parse(actualTokens[i]);
        if expVal.None? || actVal.None? {
          if expectedTokens[i] != actualTokens[i] {
            return false;
          }
          continue;
        }
        if Abs(expVal.value - actVal.value) > epsilon {
          return false;
        }
      }
      equal := true;
    }
  }
}
