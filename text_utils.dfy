/*
 * Character and string helpers used by the editor (src/helpers/TextUtils.cpp).
 * Strings are sequences of Dafny characters; the source works on C++ chars,
 * and every character named here is ASCII.
 */
module TextUtils {

  /**
   * The characters that make up a "word" for word-wise selection: the source's
   * single 63-character literal, written here as four literals in the same order.
   */
  const WordCharacters: string := "_" + "abcdefghijklmnopqrstuvwxyz" + "ABCDEFGHIJKLMNOPQRSTUVWXYZ" + "0123456789"

  /** The value `std::string::find` returns when the character does not occur. */
  const Npos: int := -1

  /** True of exactly the characters the word alphabet is meant to hold. */
  predicate IsWordCharacter(c: char)
  {
    c == '_' || ('a' <= c <= 'z') || ('A' <= c <= 'Z') || ('0' <= c <= '9')
  }

  /** `s.find(ch)`: the first position of `ch` in `s`, or Npos. */
  function Find(s: string, ch: char): (r: int)
    ensures r == Npos || 0 <= r < |s|
    ensures r != Npos ==> s[r] == ch && forall j :: 0 <= j < r ==> s[j] != ch
    ensures r == Npos ==> forall j :: 0 <= j < |s| ==> s[j] != ch
  {
    if s == [] then Npos
    else if s[0] == ch then 0
    else
      var k := Find(s[1..], ch);
      if k == Npos then Npos else k + 1
  }

  /** `Contains(s, ch)`: whether `find` locates `ch` in `s`. */
  function Contains(s: string, ch: char): (r: bool)
    ensures r <==> exists i :: 0 <= i < |s| && s[i] == ch
  {
    Find(s, ch) != Npos
  }

  /** `IsASpace(ch)`: the C locale's white-space test on an integer character code. */
  function IsASpace(ch: int): (r: bool)
    ensures r <==> ch in {0x20, 0x09, 0x0a, 0x0b, 0x0c, 0x0d}
  {
    (ch == ' ' as int) || ((ch >= 0x09) && (ch <= 0x0d))
  }

  /** `EscapeQuotesWrap(path)`: the path between two double quotes; quotes inside are kept as they are. */
  function EscapeQuotesWrap(path: string): (r: string)
    ensures |r| == |path| + 2
    ensures r[0] == '"' && r[|r| - 1] == '"'
    ensures r[1..|r| - 1] == path
  {
    var s := "\"";
    var s := s + path;
    s + "\""
  }

  /** A character is in the word alphabet exactly when it is `_`, an ASCII letter or an ASCII digit. */
  lemma WordCharactersExactly(c: char)
    ensures Contains(WordCharacters, c) <==> IsWordCharacter(c)
  {
    var w := WordCharacters;
    if IsWordCharacter(c) {
      var i := if c == '_' then 0
               else if 'a' <= c <= 'z' then 1 + (c as int - 'a' as int)
               else if 'A' <= c <= 'Z' then 27 + (c as int - 'A' as int)
               else 53 + (c as int - '0' as int);
      CodeAtMatches(i);
      assert w[i] == c;
    } else {
      forall i | 0 <= i < |w| ensures w[i] != c {
        CodeAtMatches(i);
      }
    }
  }

  /** The word alphabet has 63 characters and none of them twice. */
  lemma WordCharactersDistinct()
    ensures |WordCharacters| == 63
    ensures forall i, j :: 0 <= i < j < |WordCharacters| ==> WordCharacters[i] != WordCharacters[j]
  {
    var w := WordCharacters;
    forall i, j | 0 <= i < j < |w| ensures w[i] != w[j] {
      CodeAtMatches(i);
      CodeAtMatches(j);
    }
  }

  /** The character code at position `i` of the word alphabet, one block of the alphabet at a time. */
  function CodeAt(i: int): int
  {
    if i == 0 then '_' as int
    else if i < 27 then 'a' as int + (i - 1)
    else if i < 53 then 'A' as int + (i - 27)
    else '0' as int + (i - 53)
  }

  lemma CodeAtMatches(i: int)
    requires 0 <= i < |WordCharacters|
    ensures WordCharacters[i] as int == CodeAt(i)
  {
    var lower, upper, digits := "abcdefghijklmnopqrstuvwxyz", "ABCDEFGHIJKLMNOPQRSTUVWXYZ", "0123456789";
    assert WordCharacters == "_" + lower + upper + digits;
    if i == 0 {
    } else if i < 27 {
      assert WordCharacters[i] == lower[i - 1];
      RunCodes(lower, 'a', i - 1);
    } else if i < 53 {
      assert WordCharacters[i] == upper[i - 27];
      RunCodes(upper, 'A', i - 27);
    } else {
      assert WordCharacters[i] == digits[i - 53];
      RunCodes(digits, '0', i - 53);
    }
  }

  /** Each of the three runs of the alphabet counts up from its first character. */
  lemma RunCodes(run: string, first: char, k: int)
    requires run in {"abcdefghijklmnopqrstuvwxyz", "ABCDEFGHIJKLMNOPQRSTUVWXYZ", "0123456789"}
    requires first == run[0]
    requires 0 <= k < |run|
    ensures run[k] as int == first as int + k
  {
  }
}
