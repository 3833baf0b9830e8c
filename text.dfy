/**
 * String helpers standing in for the JavaScript built-ins the components call:
 * `String.prototype.toLowerCase`, `String.prototype.includes` and
 * `String.prototype.trim`, and the `record[key] || fallback` lookup.
 */
module Text {

  /** ASCII lower-casing of one character; every other character is left as it is. */
  function LowerChar(c: char): (d: char)
    ensures !('A' <= d <= 'Z')
    ensures 'A' <= c <= 'Z' ==> d as int == c as int + 32
    ensures !('A' <= c <= 'Z') ==> d == c
  {
    if 'A' <= c <= 'Z' then (c as int + 32) as char else c
  }

  /** `s.toLowerCase()`, restricted to the ASCII letters. */
  function ToLower(s: string): (r: string)
    ensures |r| == |s|
    decreases |s|
  {
    if s == [] then [] else [LowerChar(s[0])] + ToLower(s[1..])
  }

  /** Lower-casing keeps the length and maps each character on its own. */
  lemma {:induction false} ToLowerAt(s: string, i: nat)
    requires i < |s|
    ensures |ToLower(s)| == |s| && ToLower(s)[i] == LowerChar(s[i])
    decreases |s|
  {
    if i > 0 {
      ToLowerAt(s[1..], i - 1);
    } else if |s| > 1 {
      ToLowerAt(s[1..], 0);
    }
  }

  /** The result of lower-casing holds no upper-case ASCII letter, and lower-casing it again changes nothing. */
  lemma {:induction false} ToLowerIdempotent(s: string)
    ensures ToLower(ToLower(s)) == ToLower(s)
    ensures forall i :: 0 <= i < |ToLower(s)| ==> !('A' <= ToLower(s)[i] <= 'Z')
    decreases |s|
  {
    if s != [] {
      ToLowerIdempotent(s[1..]);
      assert ToLower(s) == [LowerChar(s[0])] + ToLower(s[1..]);
      assert ToLower(ToLower(s)) == [LowerChar(LowerChar(s[0]))] + ToLower(ToLower(s[1..])) by {
        assert ToLower(s)[0] == LowerChar(s[0]);
        assert ToLower(s)[1..] == ToLower(s[1..]);
      }
    }
  }

  /** `sub` occurs in `s` starting at index `i`. */
  ghost predicate OccursAt(s: string, sub: string, i: int)
  {
    0 <= i && i + |sub| <= |s| && s[i..i + |sub|] == sub
  }

  /** `s.includes(sub)`: a plain substring test, not a word test (`ContainsIff` says what it computes). */
  function Contains(s: string, sub: string): bool
    decreases |s|
  {
    if |sub| > |s| then false
    else if s[..|sub|] == sub then true
    else Contains(s[1..], sub)
  }

  /** `Contains` holds exactly when `sub` occurs somewhere in `s`. */
  lemma {:induction false} ContainsIff(s: string, sub: string)
    ensures Contains(s, sub) <==> exists i :: OccursAt(s, sub, i)
    decreases |s|
  {
    if |sub| > |s| {
      assert forall i :: !OccursAt(s, sub, i);
    } else if s[..|sub|] == sub {
      assert OccursAt(s, sub, 0);
    } else {
      ContainsIff(s[1..], sub);
      ShiftOccurrence(s, sub);
      assert !OccursAt(s, sub, 0);
    }
  }

  /** An occurrence after the first character of `s` is an occurrence in `s[1..]`, and back. */
  lemma ShiftOccurrence(s: string, sub: string)
    requires s != []
    ensures forall j :: 0 <= j && OccursAt(s[1..], sub, j) ==> OccursAt(s, sub, j + 1)
    ensures forall i :: 1 <= i && OccursAt(s, sub, i) ==> OccursAt(s[1..], sub, i - 1)
  {
    forall j | 0 <= j && OccursAt(s[1..], sub, j)
      ensures OccursAt(s, sub, j + 1)
    {
      assert s[1..][j..j + |sub|] == s[j + 1..j + 1 + |sub|];
    }
    forall i | 1 <= i && OccursAt(s, sub, i)
      ensures OccursAt(s[1..], sub, i - 1)
    {
      assert s[1..][i - 1..i - 1 + |sub|] == s[i..i + |sub|];
    }
  }

  /** A text cannot contain a word one of whose characters it lacks. */
  lemma MissingCharacter(s: string, sub: string, j: nat)
    requires j < |sub| && sub[j] !in s
    ensures !Contains(s, sub)
  {
    ContainsIff(s, sub);
  }

  /** An occurrence at a known index makes `Contains` hold. */
  lemma ContainsAt(s: string, sub: string, i: nat)
    requires OccursAt(s, sub, i)
    ensures Contains(s, sub)
  {
    ContainsIff(s, sub);
  }

  /** Lower-casing a string is fixed character by character. */
  lemma ToLowerBy(s: string, t: string)
    requires |s| == |t| && forall i :: 0 <= i < |s| ==> LowerChar(s[i]) == t[i]
    ensures ToLower(s) == t
  {
    forall i | 0 <= i < |s| ensures ToLower(s)[i] == t[i] {
      ToLowerAt(s, i);
    }
    if s != [] {
      ToLowerAt(s, 0);
    }
  }

  /** Every string contains itself. */
  lemma ContainsSelf(p: string)
    ensures Contains(p, p)
  {
    assert OccursAt(p, p, 0);
    ContainsIff(p, p);
  }

  /** An occurrence survives appending text on either side. */
  lemma ContainsExtend(a: string, b: string, p: string)
    ensures Contains(a, p) ==> Contains(a + b, p)
    ensures Contains(b, p) ==> Contains(a + b, p)
  {
    ContainsIff(a, p);
    ContainsIff(b, p);
    ContainsIff(a + b, p);
    if Contains(a, p) {
      var i :| OccursAt(a, p, i);
      assert (a + b)[i..i + |p|] == a[i..i + |p|];
      assert OccursAt(a + b, p, i);
    }
    if Contains(b, p) {
      var i :| OccursAt(b, p, i);
      assert (a + b)[|a| + i..|a| + i + |p|] == b[i..i + |p|];
      assert OccursAt(a + b, p, |a| + i);
    }
  }

  /**
   * The characters `String.prototype.trim` removes: the ECMAScript WhiteSpace
   * code points (tab, vertical tab, form feed, space, no-break space, the byte
   * order mark and the Unicode space separators) and the LineTerminator code points.
   */
  const JsWhitespace: set<char> := {
    '\t', '\U{000B}', '\U{000C}', ' ', '\U{00A0}', '\U{FEFF}',
    '\U{1680}', '\U{2000}', '\U{2001}', '\U{2002}', '\U{2003}', '\U{2004}',
    '\U{2005}', '\U{2006}', '\U{2007}', '\U{2008}', '\U{2009}', '\U{200A}',
    '\U{202F}', '\U{205F}', '\U{3000}',
    '\n', '\r', '\U{2028}', '\U{2029}'
  }

  /** Drops leading whitespace. */
  function TrimStart(s: string): (r: string)
    decreases |s|
  {
    if s != [] && s[0] in JsWhitespace then TrimStart(s[1..]) else s
  }

  /** Drops trailing whitespace. */
  function TrimEnd(s: string): (r: string)
    decreases |s|
  {
    if s != [] && s[|s| - 1] in JsWhitespace then TrimEnd(s[..|s| - 1]) else s
  }

  /** `s.trim()`. */
  function Trim(s: string): string
  {
    TrimEnd(TrimStart(s))
  }

  /** Every character of `s` is whitespace. */
  predicate IsBlank(s: string)
  {
    forall i :: 0 <= i < |s| ==> s[i] in JsWhitespace
  }

  /** A string with one non-whitespace character is not blank. */
  lemma NotBlankAt(s: string, i: nat)
    requires i < |s| && s[i] !in JsWhitespace
    ensures !IsBlank(s)
  {
  }

  /** Trimming leaves nothing exactly when the string is all whitespace (`!s.trim()` in the source). */
  lemma {:induction false} TrimEmptyIffBlank(s: string)
    ensures Trim(s) == "" <==> IsBlank(s)
  {
    TrimStartEmptyIff(s);
    if TrimStart(s) != "" {
      TrimStartKeepsFirst(s);
      TrimEndNonEmpty(TrimStart(s));
    }
  }

  lemma {:induction false} TrimStartEmptyIff(s: string)
    ensures TrimStart(s) == "" <==> IsBlank(s)
    decreases |s|
  {
    if s != [] {
      TrimStartEmptyIff(s[1..]);
      if s[0] in JsWhitespace {
        assert IsBlank(s) <==> IsBlank(s[1..]) by {
          if IsBlank(s[1..]) {
            forall i | 0 <= i < |s| ensures s[i] in JsWhitespace {
              if i > 0 { assert s[i] == s[1..][i - 1]; }
            }
          }
        }
      }
    }
  }

  /** A non-empty result of `TrimStart` begins with a non-whitespace character. */
  lemma {:induction false} TrimStartKeepsFirst(s: string)
    requires TrimStart(s) != ""
    ensures TrimStart(s)[0] !in JsWhitespace
    decreases |s|
  {
    if s != [] && s[0] in JsWhitespace {
      TrimStartKeepsFirst(s[1..]);
    }
  }

  /** `TrimEnd` stops at a non-whitespace first character at the latest. */
  lemma {:induction false} TrimEndNonEmpty(s: string)
    requires s != [] && s[0] !in JsWhitespace
    ensures TrimEnd(s) != ""
    decreases |s|
  {
    if s[|s| - 1] in JsWhitespace {
      assert |s| > 1;
      TrimEndNonEmpty(s[..|s| - 1]);
    }
  }

  /**
   * A lookup in a string-valued record followed by `|| fallback`: a missing key
   * or an empty value (the only falsy string) gives the fallback.
   */
  function LookupOr(colors: map<string, string>, key: string, fallback: string): (c: string)
    ensures key in colors && colors[key] != "" ==> c == colors[key]
    ensures key !in colors ==> c == fallback
    ensures key in colors && colors[key] == "" ==> c == fallback
  {
    if key in colors && colors[key] != "" then colors[key] else fallback
  }
}
