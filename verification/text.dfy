/** String operations of JavaScript that the components rely on:
    `toLowerCase`, `toUpperCase` of one character, `includes` and `trim`. */
module Text {

  /** `toLowerCase` on one character, restricted to the ASCII letters. */
  function LowerChar(c: char): char {
    if 'A' <= c <= 'Z' then (c as int + 32) as char else c
  }

  /** `toUpperCase` on one character, restricted to the ASCII letters. */
  function UpperChar(c: char): char {
    if 'a' <= c <= 'z' then (c as int - 32) as char else c
  }

  function ToLower(s: string): (r: string)
    ensures |r| == |s|
    ensures forall i :: 0 <= i < |s| ==> r[i] == LowerChar(s[i])
  {
    if s == [] then [] else [LowerChar(s[0])] + ToLower(s[1..])
  }

  function ToUpper(s: string): (r: string)
    ensures |r| == |s|
    ensures forall i :: 0 <= i < |s| ==> r[i] == UpperChar(s[i])
  {
    if s == [] then [] else [UpperChar(s[0])] + ToUpper(s[1..])
  }

  /** Lower-casing twice is lower-casing once, and lower-casing forgets
      whether the text was upper-cased first. */
  lemma LowerIdempotent(s: string)
    ensures ToLower(ToLower(s)) == ToLower(s)
    ensures ToLower(ToUpper(s)) == ToLower(s)
  {
  }

  /** `s.includes(t)`: does `t` occur in `s` as a contiguous block? */
  predicate Contains(s: string, t: string)
    decreases |s|
  {
    t <= s || (s != [] && Contains(s[1..], t))
  }

  /** Reference definition: `t` occurs in `s` starting at index `i`. */
  ghost predicate OccursAt(s: string, t: string, i: int) {
    0 <= i && i + |t| <= |s| && s[i..i + |t|] == t
  }

  ghost predicate HasSubstring(s: string, t: string) {
    exists i :: OccursAt(s, t, i)
  }

  /** The executable search finds `t` exactly when it occurs somewhere. */
  lemma {:induction false} ContainsCorrect(s: string, t: string)
    ensures Contains(s, t) <==> HasSubstring(s, t)
    decreases |s|
  {
    if t <= s {
      assert OccursAt(s, t, 0);
    } else if s == [] {
    } else {
      ContainsCorrect(s[1..], t);
      if Contains(s[1..], t) {
        var i :| OccursAt(s[1..], t, i);
        assert s[1..][i..i + |t|] == s[i + 1..i + 1 + |t|];
        assert OccursAt(s, t, i + 1);
      } else {
        forall i | OccursAt(s, t, i) ensures false {
          if i == 0 {
            assert false;
          } else {
            assert s[1..][i - 1..i - 1 + |t|] == s[i..i + |t|];
            assert OccursAt(s[1..], t, i - 1);
          }
        }
      }
    }
  }

  /** A witnessed occurrence makes `Contains` true. */
  lemma ContainsAt(s: string, t: string, i: int)
    requires OccursAt(s, t, i)
    ensures Contains(s, t)
  {
    ContainsCorrect(s, t);
  }

  /** A text in which some character of `t` never appears cannot contain `t`. */
  lemma AbsentCharBlocks(s: string, t: string, k: int)
    requires 0 <= k < |t|
    requires forall i :: 0 <= i < |s| ==> s[i] != t[k]
    ensures !Contains(s, t)
  {
    ContainsCorrect(s, t);
    forall i ensures !OccursAt(s, t, i) {
      if 0 <= i && i + |t| <= |s| {
        assert s[i..i + |t|][k] == s[i + k];
      }
    }
  }

  /** A slice of `s` whose lower-case form is `t` makes the lower-cased `s`
      contain `t`; lower-casing acts on each character alone. */
  lemma ContainsLowered(s: string, t: string, i: int)
    requires 0 <= i && i + |t| <= |s|
    requires ToLower(s[i..i + |t|]) == t
    ensures Contains(ToLower(s), t)
  {
    var lower := ToLower(s);
    forall k | 0 <= k < |t| ensures lower[i..i + |t|][k] == t[k] {
      assert s[i..i + |t|][k] == s[i + k];
    }
    assert lower[i..i + |t|] == t;
    ContainsAt(lower, t, i);
  }

  /** A lower-case letter of `t` that occurs in `s` in neither case keeps
      the lower-cased `s` from containing `t`. */
  lemma AbsentLowered(s: string, t: string, k: int)
    requires 0 <= k < |t| && 'a' <= t[k] <= 'z'
    requires t[k] !in s && UpperChar(t[k]) !in s
    ensures !Contains(ToLower(s), t)
  {
    var lower := ToLower(s);
    forall i | 0 <= i < |lower| ensures lower[i] != t[k] {
      assert s[i] in s;
    }
    AbsentCharBlocks(lower, t, k);
  }

  /** The whitespace and line terminators that JavaScript's `trim` removes
      (WhiteSpace and LineTerminator of the ECMAScript grammar). */
  predicate IsJsWhitespace(c: char) {
    || '\U{9}' <= c <= '\U{D}'        // tab, line feed, vertical tab, form feed, carriage return
    || c == ' ' || c == '\U{A0}' || c == '\U{1680}'
    || '\U{2000}' <= c <= '\U{200A}'
    || c == '\U{2028}' || c == '\U{2029}' || c == '\U{202F}' || c == '\U{205F}'
    || c == '\U{3000}' || c == '\U{FEFF}'
  }

  predicate AllWhitespace(s: string) {
    forall i :: 0 <= i < |s| ==> IsJsWhitespace(s[i])
  }

  function TrimStart(s: string): string
    decreases |s|
  {
    if s != [] && IsJsWhitespace(s[0]) then TrimStart(s[1..]) else s
  }

  function TrimEnd(s: string): string
    decreases |s|
  {
    if s != [] && IsJsWhitespace(s[|s| - 1]) then TrimEnd(s[..|s| - 1]) else s
  }

  /** `s.trim()`. */
  function Trim(s: string): string {
    TrimEnd(TrimStart(s))
  }

  lemma {:induction false} TrimStartEmpty(s: string)
    ensures TrimStart(s) == [] <==> AllWhitespace(s)
    ensures TrimStart(s) != [] ==> !IsJsWhitespace(TrimStart(s)[0])
    decreases |s|
  {
    if s != [] && IsJsWhitespace(s[0]) {
      TrimStartEmpty(s[1..]);
      assert AllWhitespace(s) <==> AllWhitespace(s[1..]) by {
        if AllWhitespace(s[1..]) {
          forall i | 0 <= i < |s| ensures IsJsWhitespace(s[i]) {
            if i > 0 { assert s[i] == s[1..][i - 1]; }
          }
        }
      }
    }
  }

  lemma {:induction false} TrimEndKeepsHead(s: string)
    requires s != [] && !IsJsWhitespace(s[0])
    ensures TrimEnd(s) != []
    decreases |s|
  {
    if IsJsWhitespace(s[|s| - 1]) {
      TrimEndKeepsHead(s[..|s| - 1]);
    }
  }

  /** `trim` yields the empty string exactly when every character is
      whitespace; this is the blank test of the chat input. */
  lemma TrimEmptyIffBlank(s: string)
    ensures Trim(s) == [] <==> AllWhitespace(s)
  {
    TrimStartEmpty(s);
    if TrimStart(s) != [] {
      TrimEndKeepsHead(TrimStart(s));
    }
  }
}
