/**
 * The few `java.lang.String` and Spring `StringUtils` operations the core
 * relies on, over `seq<char>`.
 */
module JavaStrings {

  /**
   * `Character.isWhitespace`: the Unicode space, line and paragraph
   * separators other than the no-break spaces, plus the ASCII controls
   * U+0009..U+000D and U+001C..U+001F.
   */
  predicate IsWhitespace(c: char)
  {
    var n := c as int;
    || (0x09 <= n <= 0x0D)
    || (0x1C <= n <= 0x20)
    || n == 0x1680
    || (0x2000 <= n <= 0x2006)
    || (0x2008 <= n <= 0x200A)
    || n == 0x2028 || n == 0x2029
    || n == 0x205F || n == 0x3000
  }

  /** `StringUtils.hasText`: some character is not whitespace. */
  predicate HasText(s: string)
  {
    exists i :: 0 <= i < |s| && !IsWhitespace(s[i])
  }

  /** `String.trim` strips characters at or below U+0020 from both ends. */
  predicate IsTrimmable(c: char)
  {
    c <= ' '
  }

  function TrimStart(s: string): (r: string)
    ensures |r| <= |s|
    ensures r == s[|s| - |r|..]
  {
    if s != [] && IsTrimmable(s[0]) then TrimStart(s[1..]) else s
  }

  function TrimEnd(s: string): (r: string)
    ensures |r| <= |s|
    ensures r == s[..|r|]
  {
    if s != [] && IsTrimmable(s[|s| - 1]) then TrimEnd(s[..|s| - 1]) else s
  }

  /** `String.trim`. */
  function Trim(s: string): string
  {
    TrimEnd(TrimStart(s))
  }

  /** `toUpperCase` on the ASCII letters; every other character is kept. */
  function UpperChar(c: char): char
  {
    if 'a' <= c <= 'z' then (c as int - 32) as char else c
  }

  /** `toLowerCase` on the ASCII letters; every other character is kept. */
  function LowerChar(c: char): char
  {
    if 'A' <= c <= 'Z' then (c as int + 32) as char else c
  }

  function ToUpper(s: string): (r: string)
    ensures |r| == |s| && forall i :: 0 <= i < |s| ==> r[i] == UpperChar(s[i])
  {
    seq(|s|, i requires 0 <= i < |s| => UpperChar(s[i]))
  }

  function ToLower(s: string): (r: string)
    ensures |r| == |s| && forall i :: 0 <= i < |s| ==> r[i] == LowerChar(s[i])
  {
    seq(|s|, i requires 0 <= i < |s| => LowerChar(s[i]))
  }

  /** `String.startsWith`. */
  predicate StartsWith(s: string, prefix: string)
  {
    |prefix| <= |s| && s[..|prefix|] == prefix
  }

  /**
   * Trimming removes exactly the padding around a word that neither starts
   * nor ends with a trimmable character.
   */
  lemma {:induction false} TrimPadded(left: string, word: string, right: string)
    requires forall i :: 0 <= i < |left| ==> IsTrimmable(left[i])
    requires forall i :: 0 <= i < |right| ==> IsTrimmable(right[i])
    requires word != [] ==> !IsTrimmable(word[0]) && !IsTrimmable(word[|word| - 1])
    ensures Trim(left + word + right) == word
  {
    if word == [] {
      var pad := left + word + right;
      assert forall i :: 0 <= i < |pad| ==> IsTrimmable(pad[i]) by {
        assert pad == left + right;
      }
      TrimEndAllTrimmable(TrimStart(pad));
    } else {
      assert left + word + right == left + (word + right);
      TrimStartPadded(left, word + right);
      TrimEndPadded(word, right);
    }
  }

  lemma {:induction false} TrimStartPadded(left: string, rest: string)
    requires forall i :: 0 <= i < |left| ==> IsTrimmable(left[i])
    requires rest != [] ==> !IsTrimmable(rest[0])
    ensures TrimStart(left + rest) == TrimStart(rest)
  {
    if left != [] {
      assert (left + rest)[1..] == left[1..] + rest;
      TrimStartPadded(left[1..], rest);
    } else {
      assert left + rest == rest;
    }
  }

  lemma {:induction false} TrimEndPadded(word: string, right: string)
    requires word != [] && !IsTrimmable(word[|word| - 1])
    requires forall i :: 0 <= i < |right| ==> IsTrimmable(right[i])
    ensures TrimEnd(word + right) == word
  {
    if right == [] {
      assert word + right == word;
    } else {
      var s := word + right;
      assert s[..|s| - 1] == word + right[..|right| - 1];
      TrimEndPadded(word, right[..|right| - 1]);
    }
  }

  lemma {:induction false} TrimEndAllTrimmable(s: string)
    requires forall i :: 0 <= i < |s| ==> IsTrimmable(s[i])
    ensures TrimEnd(s) == []
  {
    if s != [] {
      TrimEndAllTrimmable(s[..|s| - 1]);
    }
  }
}
