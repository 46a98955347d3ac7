/**
 * ShortCodeGenerator.generateShortCode: take a UUID string, remove every '-' and keep
 * the first CodeLength characters. UUID.randomUUID() is not modelled: the UUID's string
 * form is the input.
 */
module ShortCodeGenerator {
  import opened Wrappers
  import opened HexDigits

  const CodeLength: nat := 6

  /** String.substring(0, CodeLength) on a string shorter than CodeLength. */
  datatype Error = StringIndexOutOfBounds

  /** uuid.replaceAll("-", ""): the string with every hyphen removed, in order. */
  function StripHyphens(s: string): (r: string)
    ensures '-' !in r
    ensures |r| <= |s|
  {
    if s == [] then []
    else (if s[0] == '-' then [] else [s[0]]) + StripHyphens(s[1..])
  }

  /** A string without hyphens is left as it is. */
  lemma {:induction false} StripHyphensNoHyphen(s: string)
    requires '-' !in s
    ensures StripHyphens(s) == s
  {
    if s != [] {
      StripHyphensNoHyphen(s[1..]);
    }
  }

  /** Removing hyphens works piecewise: it distributes over concatenation. */
  lemma {:induction false} StripHyphensAppend(a: string, b: string)
    ensures StripHyphens(a + b) == StripHyphens(a) + StripHyphens(b)
  {
    if a != [] {
      assert (a + b)[1..] == a[1..] + b;
      StripHyphensAppend(a[1..], b);
    } else {
      assert a + b == b;
    }
  }

  /** Removing hyphens keeps exactly the other characters, each as often as before. */
  lemma {:induction false} StripHyphensKeepsOthers(s: string, c: char)
    requires c != '-'
    ensures multiset(StripHyphens(s))[c] == multiset(s)[c]
  {
    if s != [] {
      StripHyphensKeepsOthers(s[1..], c);
      assert s == [s[0]] + s[1..];
    }
  }

  /** generateShortCode on the given UUID string. */
  function GenerateShortCode(uuid: string): (r: Result<string, Error>)
    ensures r.Success? <==> |StripHyphens(uuid)| >= CodeLength
    ensures r.Success? ==> |r.value| == CodeLength && '-' !in r.value
    ensures r.Success? ==> r.value <= StripHyphens(uuid)
  {
    var stripped := StripHyphens(uuid);
    if |stripped| < CodeLength then Failure(StringIndexOutOfBounds)
    else Success(stripped[..CodeLength])
  }

  /** The canonical string form of a UUID: 32 lower-case hex digits in groups 8-4-4-4-12. */
  predicate IsCanonicalUuid(s: string) {
    && |s| == 36
    && forall i :: 0 <= i < 36 ==>
         if i == 8 || i == 13 || i == 18 || i == 23 then s[i] == '-' else IsLowerHexDigit(s[i])
  }

  /** On a canonical UUID the code never fails: it is the UUID's first six characters, all hex. */
  lemma CanonicalUuidShortCode(uuid: string)
    requires IsCanonicalUuid(uuid)
    ensures GenerateShortCode(uuid) == Success(uuid[..CodeLength])
    ensures forall i :: 0 <= i < CodeLength ==> IsLowerHexDigit(GenerateShortCode(uuid).value[i])
  {
    var head, tail := uuid[..8], uuid[8..];
    assert uuid == head + tail;
    assert forall i :: 0 <= i < 8 ==> IsLowerHexDigit(head[i]);
    StripHyphensNoHyphen(head);
    StripHyphensAppend(head, tail);
    assert StripHyphens(uuid)[..CodeLength] == uuid[..CodeLength];
  }
}
