/**
 * The two pieces of JavaScript string semantics the prompt improver relies on:
 * `String.prototype.trim` and the truthiness of a `string | null`.
 */
module JsText {
  import opened Wrappers

  /**
   * The code points `trim` removes: WhiteSpace and LineTerminator of
   * ECMA-262 (sections 12.2 and 12.3), that is TAB, VT, FF, SP, NBSP,
   * ZWNBSP, the space separators of Unicode category Zs, LF, CR, LS and PS.
   */
  predicate IsJsWhitespace(c: char)
  {
    c == '\t' || c == '\n' || c == '\U{000B}' || c == '\U{000C}' || c == '\r'
    || c == ' ' || c == '\U{00A0}' || c == '\U{1680}'
    || ('\U{2000}' <= c <= '\U{200A}')
    || c == '\U{2028}' || c == '\U{2029}' || c == '\U{202F}' || c == '\U{205F}'
    || c == '\U{3000}' || c == '\U{FEFF}'
  }

  /** `s` with its longest whitespace prefix removed. */
  function TrimStart(s: string): (r: string)
    ensures |r| <= |s| && r == s[|s| - |r|..]
    ensures forall i :: 0 <= i < |s| - |r| ==> IsJsWhitespace(s[i])
    ensures r == [] || !IsJsWhitespace(r[0])
  {
    if |s| > 0 && IsJsWhitespace(s[0]) then TrimStart(s[1..]) else s
  }

  /** `s` with its longest whitespace suffix removed. */
  function TrimEnd(s: string): (r: string)
    ensures |r| <= |s| && r == s[..|r|]
    ensures forall i :: |r| <= i < |s| ==> IsJsWhitespace(s[i])
    ensures r == [] || !IsJsWhitespace(r[|r| - 1])
  {
    if |s| > 0 && IsJsWhitespace(s[|s| - 1]) then TrimEnd(s[..|s| - 1]) else s
  }

  /** Every character of `t` is whitespace. */
  predicate AllWhitespace(t: string)
  {
    forall i :: 0 <= i < |t| ==> IsJsWhitespace(t[i])
  }

  /** `s.trim()`: `s` without its leading and trailing whitespace; `TrimCutsWhitespace` says what is cut off. */
  function Trim(s: string): (r: string)
    ensures |r| <= |s|
    ensures r == [] || (!IsJsWhitespace(r[0]) && !IsJsWhitespace(r[|r| - 1]))
  {
    var t := TrimStart(s);
    var r := TrimEnd(t);
    assert r != [] ==> r[0] == t[0];
    r
  }

  /**
   * `s` is a whitespace prefix of `k` characters, where `TrimStart` leaves
   * off, then `Trim(s)`, then a whitespace suffix.
   */
  lemma TrimCutsWhitespace(s: string)
    ensures var k, r := |s| - |TrimStart(s)|, Trim(s);
            && k + |r| <= |s|
            && (forall i :: 0 <= i < |r| ==> r[i] == s[k + i])
            && (forall i :: 0 <= i < |s| && (i < k || k + |r| <= i) ==> IsJsWhitespace(s[i]))
  {
    var t := TrimStart(s);
    var r := TrimEnd(t);
    assert r == Trim(s);
    var k := |s| - |t|;
    assert t == s[k..] && r == t[..|r|];
    forall i | 0 <= i < |r| ensures r[i] == s[k + i] {
      assert r[i] == t[i];
    }
    forall i | 0 <= i < |s| && (i < k || k + |r| <= i) ensures IsJsWhitespace(s[i]) {
      if k + |r| <= i {
        assert s[i] == t[i - k];
      }
    }
  }

  /**
   * The "empty or whitespace only" test of the program, `s.trim() === ""`;
   * `BlankIffAllWhitespace` shows the two agree.
   */
  predicate IsBlank(s: string)
  {
    AllWhitespace(s)
  }

  /** `s.trim()` is empty exactly when every character of `s` is whitespace. */
  lemma BlankIffAllWhitespace(s: string)
    ensures Trim(s) == [] <==> IsBlank(s)
  {
    TrimCutsWhitespace(s);
    var k := |s| - |TrimStart(s)|;
    if Trim(s) != [] {
      assert s[k] == Trim(s)[0];
    }
  }

  /** Trimming twice changes nothing more than trimming once. */
  lemma TrimIdempotent(s: string)
    ensures Trim(Trim(s)) == Trim(s)
  {
    var r := Trim(s);
    if r != [] {
      assert TrimStart(r) == r;
      assert TrimEnd(r) == r;
    }
  }

  /** JavaScript truthiness of a `string | null`: present and not empty. */
  predicate Truthy(s: Option<string>)
  {
    s.Some? && s.value != []
  }
}
