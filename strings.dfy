/** String helpers standing for the JavaScript built-ins the components use:
    `toLowerCase`, `includes` and `Number`. */
module Strings {
  import opened Wrappers

  /** Lower-cases one ASCII letter; every other character is left as it is. */
  function LowerChar(c: char): char {
    if 'A' <= c <= 'Z' then (c as int + 32) as char else c
  }

  /** `s.toLowerCase()`, restricted to ASCII letters. */
  function ToLower(s: string): string
    decreases |s|
  {
    if s == [] then [] else [LowerChar(s[0])] + ToLower(s[1..])
  }

  /** Lower-casing works character by character and keeps the length. */
  lemma {:induction false} ToLowerPointwise(s: string)
    ensures |ToLower(s)| == |s|
    ensures forall i :: 0 <= i < |s| ==> ToLower(s)[i] == LowerChar(s[i])
    decreases |s|
  {
    if s != [] {
      ToLowerPointwise(s[1..]);
      forall i | 0 < i < |s|
        ensures ToLower(s)[i] == LowerChar(s[i])
      {
        assert ToLower(s)[i] == ToLower(s[1..])[i - 1];
      }
    }
  }

  /** Lower-casing an already lower-cased string changes nothing, so comparing
      `ToLower(t)` with a lower-case literal ignores the case of `t`. */
  lemma ToLowerIdempotent(s: string)
    ensures ToLower(ToLower(s)) == ToLower(s)
  {
    ToLowerPointwise(s);
    ToLowerPointwise(ToLower(s));
  }

  predicate StartsWith(s: string, prefix: string) {
    |prefix| <= |s| && s[..|prefix|] == prefix
  }

  /** `s.includes(t)`: `t` occurs in `s` at some position. */
  predicate Includes(s: string, t: string)
    decreases |s|
  {
    StartsWith(s, t) || (s != [] && Includes(s[1..], t))
  }

  /** Whatever surrounds it, a string includes each of its own pieces. */
  lemma {:induction false} IncludesPiece(a: string, t: string, b: string)
    ensures Includes(a + t + b, t)
    decreases |a|
  {
    if a == [] {
      assert a + t + b == t + b;
      assert (t + b)[..|t|] == t;
    } else {
      IncludesPiece(a[1..], t, b);
      assert (a + t + b)[1..] == a[1..] + t + b;
    }
  }

  function DigitValue(c: char): Option<nat> {
    if '0' <= c <= '9' then Some(c as int - '0' as int) else None
  }

  /** `Number(s)` for the strings the percentage controls produce: a string of
      decimal digits denotes its value (the empty string denotes 0, as in
      JavaScript); any other string is not a number (`NaN`), written `None`. */
  function DecimalValue(s: string): (r: Option<nat>)
    ensures r.Some? <==> forall i :: 0 <= i < |s| ==> DigitValue(s[i]).Some?
    decreases |s|
  {
    if s == [] then Some(0)
    else
      var init := s[..|s| - 1];
      assert forall i :: 0 <= i < |init| ==> init[i] == s[i];
      match (DecimalValue(init), DigitValue(s[|s| - 1]))
      case (Some(v), Some(d)) => Some(10 * v + d)
      case _ => None
  }

  /** The two percentages the flows single out: the initial `'50'` and the
      withdraw-all `'100'`. */
  lemma DecimalValuePresets()
    ensures DecimalValue("50") == Some(50)
    ensures DecimalValue("100") == Some(100)
  {
    assert "50"[..1] == "5";
    assert "5"[..0] == "";
    assert "100"[..2] == "10";
    assert "10"[..1] == "1";
    assert "1"[..0] == "";
  }
}
