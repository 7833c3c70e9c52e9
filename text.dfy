/**
 * The prompt rule shared by every form: a prompt may be submitted only when
 * `prompt.trim().length >= 3`. `trim` strips the ECMAScript WhiteSpace and
 * LineTerminator code points from both ends, and `length` counts UTF-16 code
 * units, so a character outside the Basic Multilingual Plane counts twice.
 */
module Text {

  /** The fewest UTF-16 code units a trimmed prompt must have. */
  const MinPromptLength: nat := 3

  /**
   * The code points `String.prototype.trim` removes: TAB, VT, FF, ZWNBSP,
   * every Unicode space separator (category Zs), LF, CR, LINE SEPARATOR and
   * PARAGRAPH SEPARATOR.
   */
  predicate IsTrimmable(c: char)
    ensures IsTrimmable(c) ==> Utf16Units(c) == 1
    ensures 0x21 <= c as int <= 0x7E ==> !IsTrimmable(c)
  {
    var n := c as int;
    n == 0x09 || n == 0x0A || n == 0x0B || n == 0x0C || n == 0x0D
    || n == 0x20 || n == 0xA0 || n == 0x1680 || (0x2000 <= n <= 0x200A)
    || n == 0x2028 || n == 0x2029 || n == 0x202F || n == 0x205F
    || n == 0x3000 || n == 0xFEFF
  }

  /** `s` with its leading trimmable characters removed: the longest suffix that starts with a kept character. */
  function TrimStart(s: string): (r: string)
    ensures |r| <= |s| && r == s[|s| - |r|..]
    ensures forall i :: 0 <= i < |s| - |r| ==> IsTrimmable(s[i])
    ensures r != [] ==> !IsTrimmable(r[0])
  {
    if s != [] && IsTrimmable(s[0]) then TrimStart(s[1..]) else s
  }

  /** `s` with its trailing trimmable characters removed: the longest prefix that ends with a kept character. */
  function TrimEnd(s: string): (r: string)
    ensures |r| <= |s| && r == s[..|r|]
    ensures forall i :: |r| <= i < |s| ==> IsTrimmable(s[i])
    ensures r != [] ==> !IsTrimmable(r[|r| - 1])
  {
    if s != [] && IsTrimmable(s[|s| - 1]) then TrimEnd(s[..|s| - 1]) else s
  }

  /**
   * `s.trim()`: the part of `s` between its leading and its trailing
   * trimmable characters; everything cut off is trimmable and the result
   * neither starts nor ends with a trimmable character.
   */
  function Trim(s: string): (r: string)
    ensures |r| <= |TrimStart(s)| <= |s|
    ensures var lead := |s| - |TrimStart(s)|;
      && r == s[lead..lead + |r|]
      && (forall i :: 0 <= i < lead ==> IsTrimmable(s[i]))
      && (forall i :: lead + |r| <= i < |s| ==> IsTrimmable(s[i]))
    ensures r != [] ==> !IsTrimmable(r[0]) && !IsTrimmable(r[|r| - 1])
  {
    TrimEnd(TrimStart(s))
  }

  /** The UTF-16 length of one character: two code units for a code point above U+FFFF. */
  function Utf16Units(c: char): nat {
    if c as int < 0x1_0000 then 1 else 2
  }

  /** `s.length` in JavaScript: the number of UTF-16 code units of `s`. */
  function Utf16Length(s: string): (n: nat)
    ensures |s| <= n <= 2 * |s|
    ensures n == 0 <==> s == []
  {
    if s == [] then 0 else Utf16Units(s[0]) + Utf16Length(s[1..])
  }

  /** A string of one character has the code units of that character. */
  lemma Utf16LengthOfChar(c: char)
    ensures Utf16Length([c]) == Utf16Units(c)
    ensures Utf16Units(c) == (if c as int < 0x1_0000 then 1 else 2)
  {
  }

  /** The code units of a concatenation are those of its parts; with `Utf16LengthOfChar` this pins the length of every string. */
  lemma {:induction false} Utf16LengthConcat(a: string, b: string)
    ensures Utf16Length(a + b) == Utf16Length(a) + Utf16Length(b)
  {
    if a == [] {
      assert a + b == b;
    } else {
      assert (a + b)[0] == a[0];
      assert (a + b)[1..] == a[1..] + b;
      Utf16LengthConcat(a[1..], b);
    }
  }

  /** The guard of every form's submit handler: `prompt.trim().length >= 3`. */
  predicate LongEnough(prompt: string)
    ensures LongEnough(Trim(prompt)) == LongEnough(prompt)
  {
    TrimIdempotent(prompt);
    Utf16Length(Trim(prompt)) >= MinPromptLength
  }

  /** A prompt trims to nothing exactly when every character of it is trimmable. */
  lemma TrimEmptyIffBlank(s: string)
    ensures Trim(s) == [] <==> forall i :: 0 <= i < |s| ==> IsTrimmable(s[i])
  {
    if Trim(s) != [] {
      var lead := |s| - |TrimStart(s)|;
      assert s[lead] == Trim(s)[0];
    }
  }

  /** Trimming twice gives what trimming once gives. */
  lemma TrimIdempotent(s: string)
    ensures Trim(Trim(s)) == Trim(s)
  {
    var t := Trim(s);
    if t != [] {
      assert TrimStart(t) == t;
      assert TrimEnd(t) == t;
    }
  }

  /** A blank prompt never passes the submit guard. */
  lemma BlankIsNotLongEnough(s: string)
    requires forall i :: 0 <= i < |s| ==> IsTrimmable(s[i])
    ensures !LongEnough(s)
  {
    TrimEmptyIffBlank(s);
  }

  /** A trimmed prompt of three characters always passes the submit guard; one of fewer than two never does. */
  lemma LongEnoughBounds(s: string)
    ensures |Trim(s)| >= MinPromptLength ==> LongEnough(s)
    ensures |Trim(s)| < 2 ==> !LongEnough(s)
  {
  }
}
