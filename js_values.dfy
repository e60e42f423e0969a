/**
  The few JavaScript value behaviours the client code depends on: what a
  `catch` clause receives, reading `.message` from it, `String.prototype.includes`
  and `String.prototype.trim`.
*/
module JsValues {
  import opened Wrappers

  /**
    A caught value. `Nullish` is `undefined` or `null`, whose properties cannot be
    read; `Falsy` is any other falsy value (`""`, `0`, `false`, `NaN`), which has no
    `message` property; `Thrown` is an object, whose `message` property is a string
    or absent.
  */
  datatype Caught = Nullish | Falsy | Thrown(message: Option<string>)

  /** The one built-in exception the modelled code can raise by itself. */
  datatype JsException = TypeError

  /** The `message` property of a value that is not nullish; absent unless it is an object. */
  function MessageProperty(e: Caught): Option<string>
  {
    if e.Thrown? then e.message else None
  }

  /** `error.message`: reading a property of `undefined` or `null` raises a TypeError. */
  function MessageOf(e: Caught): (r: Result<Option<string>, JsException>)
    ensures r.Failure? <==> e == Nullish
    ensures e.Thrown? ==> r == Success(e.message)
    ensures e == Falsy ==> r == Success(None)
  {
    match e
    case Nullish => Failure(TypeError)
    case Falsy => Success(None)
    case Thrown(m) => Success(m)
  }

  // ---------------------------------------------------------------------------
  // includes
  // ---------------------------------------------------------------------------

  predicate IsPrefix(part: string, s: string)
  {
    |part| <= |s| && s[..|part|] == part
  }

  /** `s.includes(part)`. */
  predicate Contains(s: string, part: string)
    decreases |s|
  {
    IsPrefix(part, s) || (s != [] && Contains(s[1..], part))
  }

  /** `part` occurs in `s` starting at index `i`. */
  predicate OccursAt(s: string, part: string, i: int)
  {
    0 <= i <= |s| - |part| && s[i..i + |part|] == part
  }

  /** `includes` finds `part` exactly when it occurs at some position of `s`. */
  lemma {:induction false} ContainsAt(s: string, part: string)
    ensures Contains(s, part) <==> exists i :: OccursAt(s, part, i)
    decreases |s|
  {
    assert IsPrefix(part, s) <==> OccursAt(s, part, 0);
    if s != [] {
      ContainsAt(s[1..], part);
      forall j | OccursAt(s[1..], part, j)
        ensures OccursAt(s, part, j + 1)
      {
        assert s[1..][j..j + |part|] == s[j + 1..j + 1 + |part|];
      }
      forall i | OccursAt(s, part, i) && i > 0
        ensures OccursAt(s[1..], part, i - 1)
      {
        assert s[1..][i - 1..i - 1 + |part|] == s[i..i + |part|];
      }
    }
  }

  /** `optional?.includes(part)` is truthy only when the message is there and contains `part`. */
  predicate MessageContains(message: Option<string>, part: string)
  {
    message.Some? && Contains(message.value, part)
  }

  // ---------------------------------------------------------------------------
  // trim
  // ---------------------------------------------------------------------------

  /** ECMAScript WhiteSpace and LineTerminator code points, which `trim` removes. */
  predicate IsJsWhitespace(c: char)
  {
    || c == '\t' || c == '\n' || c == '\U{0B}' || c == '\U{0C}' || c == '\r' || c == ' '
    || c == '\U{A0}' || c == '\U{1680}' || ('\U{2000}' <= c <= '\U{200A}')
    || c == '\U{2028}' || c == '\U{2029}' || c == '\U{202F}' || c == '\U{205F}'
    || c == '\U{3000}' || c == '\U{FEFF}'
  }

  /** Every character of `s` is white space (the empty string included). */
  predicate IsBlank(s: string)
  {
    forall i | 0 <= i < |s| :: IsJsWhitespace(s[i])
  }

  function TrimStart(s: string): (r: string)
    ensures |r| <= |s| && r == s[|s| - |r|..]
    ensures IsBlank(s[..|s| - |r|])
    ensures r == [] || !IsJsWhitespace(r[0])
    decreases |s|
  {
    if s != [] && IsJsWhitespace(s[0]) then
      var r := TrimStart(s[1..]);
      assert s[..|s| - |r|] == [s[0]] + s[1..][..|s[1..]| - |r|];
      r
    else s
  }

  function TrimEnd(s: string): (r: string)
    ensures |r| <= |s| && r == s[..|r|]
    ensures IsBlank(s[|r|..])
    ensures r == [] || !IsJsWhitespace(r[|r| - 1])
    decreases |s|
  {
    if s != [] && IsJsWhitespace(s[|s| - 1]) then
      var r := TrimEnd(s[..|s| - 1]);
      assert s[|r|..] == s[..|s| - 1][|r|..] + [s[|s| - 1]];
      r
    else s
  }

  /** `s.trim()`. */
  function Trim(s: string): string
  {
    TrimEnd(TrimStart(s))
  }

  lemma {:induction false} BlankTrimsToEmpty(s: string)
    requires IsBlank(s)
    ensures TrimStart(s) == []
    decreases |s|
  {
    if s != [] {
      BlankTrimsToEmpty(s[1..]);
    }
  }

  /** `!s.trim()` holds exactly for the strings made only of white space. */
  lemma TrimEmptyIffBlank(s: string)
    ensures Trim(s) == [] <==> IsBlank(s)
  {
    var t := TrimStart(s);
    if Trim(s) == [] {
      assert IsBlank(t[0..]);
      assert s == s[..|s| - |t|] + t;
    }
    if IsBlank(s) {
      BlankTrimsToEmpty(s);
    }
  }
}
