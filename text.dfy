/** String operations the core relies on, as JavaScript defines them for its inputs. */
module Text {
  import opened Wrappers

  /** `s || fallback` for a possibly absent string: an absent or empty `s` gives `fallback`. */
  function OrElse(s: Option<string>, fallback: string): (r: string)
    ensures s.Some? && s.value != [] ==> r == s.value
    ensures s.None? || s.value == [] ==> r == fallback
  {
    if s.Some? && s.value != [] then s.value else fallback
  }

  /** A configuration value is missing when unset or empty (`!process.env.X`). */
  predicate Missing(s: Option<string>) {
    s.None? || s.value == []
  }

  /**
   * `s.split('T')[0]`: the text before the first 'T', or all of `s` when it has
   * none.
   */
  function DatePart(s: string): (r: string)
    ensures r <= s
    ensures 'T' !in r
    ensures |r| < |s| ==> s[|r|] == 'T'
  {
    if s == [] || s[0] == 'T' then [] else [s[0]] + DatePart(s[1..])
  }

  /** A timestamp `day + "T" + time` whose day part has no 'T' splits back to `day`. */
  lemma {:induction false} DatePartBeforeT(day: string, time: string)
    requires 'T' !in day
    ensures DatePart(day + "T" + time) == day
  {
    if day != [] {
      assert (day + "T" + time)[1..] == day[1..] + "T" + time;
      DatePartBeforeT(day[1..], time);
    }
  }

  /** `toLowerCase` on one character, for the ASCII letters. */
  function LowerChar(c: char): char {
    if 'A' <= c <= 'Z' then (c as int + 32) as char else c
  }

  /**
   * `toLowerCase` on ASCII: every capital letter becomes its small letter,
   * every other character is kept, and no capital letter is left.
   */
  function Lower(s: string): (r: string)
    ensures |r| == |s|
    ensures forall i :: 0 <= i < |s| && 'A' <= s[i] <= 'Z' ==> r[i] as int == s[i] as int + 32
    ensures forall i :: 0 <= i < |s| && !('A' <= s[i] <= 'Z') ==> r[i] == s[i]
    ensures forall i :: 0 <= i < |r| ==> !('A' <= r[i] <= 'Z')
  {
    seq(|s|, i requires 0 <= i < |s| => LowerChar(s[i]))
  }

  /** Lower-casing twice is lower-casing once. */
  lemma LowerIdempotent(s: string)
    ensures Lower(Lower(s)) == Lower(s)
  {
    var once := Lower(s);
    forall i | 0 <= i < |once| ensures Lower(once)[i] == once[i] {
      assert !('A' <= once[i] <= 'Z');
    }
  }

  /** `haystack.includes(needle)`: `needle` occurs somewhere in `haystack`. */
  predicate Contains(haystack: string, needle: string) {
    needle <= haystack || (haystack != [] && Contains(haystack[1..], needle))
  }

  /** The characters `String.prototype.trim` removes: WhiteSpace and LineTerminator. */
  predicate IsJsWhitespace(c: char) {
    || c == '\t' || c == '\n' || c == '\U{000B}' || c == '\U{000C}' || c == '\r' || c == ' '
    || c == '\U{00A0}' || c == '\U{1680}' || '\U{2000}' <= c <= '\U{200A}'
    || c == '\U{2028}' || c == '\U{2029}' || c == '\U{202F}' || c == '\U{205F}'
    || c == '\U{3000}' || c == '\U{FEFF}'
  }

  predicate IsBlank(s: string) {
    forall i :: 0 <= i < |s| ==> IsJsWhitespace(s[i])
  }

  /** Drops the leading whitespace. */
  function TrimStart(s: string): (r: string)
    ensures |r| <= |s| && r == s[|s| - |r|..]
    ensures IsBlank(s[..|s| - |r|])
    ensures r != [] ==> !IsJsWhitespace(r[0])
  {
    if s != [] && IsJsWhitespace(s[0]) then
      var r := TrimStart(s[1..]);
      assert s[..|s| - |r|] == [s[0]] + s[1..][..|s[1..]| - |r|];
      r
    else
      s
  }

  /** Drops the trailing whitespace. */
  function TrimEnd(s: string): (r: string)
    ensures |r| <= |s| && r == s[..|r|]
    ensures IsBlank(s[|r|..])
    ensures r != [] ==> !IsJsWhitespace(r[|r| - 1])
  {
    if s != [] && IsJsWhitespace(s[|s| - 1]) then
      var r := TrimEnd(s[..|s| - 1]);
      assert s[|r|..] == s[..|s| - 1][|r|..] + [s[|s| - 1]];
      r
    else
      s
  }

  /** `s.trim()`: empty exactly when every character of `s` is whitespace. */
  function Trim(s: string): (r: string)
    ensures r == [] <==> IsBlank(s)
  {
    var front := TrimStart(s);
    assert s == s[..|s| - |front|] + front;
    TrimEnd(front)
  }
}
