/**
 * The character-class rules the React pages test with regular expressions,
 * written as predicates over strings. `\s` is the ECMAScript whitespace set
 * and `\d` the ASCII digits.
 */
module FormRules {
  import opened Text

  /** `!s.trim()` in JavaScript: nothing is left once whitespace is trimmed. */
  predicate JsBlank(s: string) {
    forall k :: 0 <= k < |s| ==> IsJsSpace(s[k])
  }

  lemma JsBlankIsTrimmedEmpty(s: string)
    ensures JsBlank(s) <==> JsTrim(s) == []
  {
  }

  predicate IsAsciiLetter(c: char) {
    'a' <= c <= 'z' || 'A' <= c <= 'Z'
  }

  /** `/^[a-zA-Z\s]*$/`. */
  predicate LettersAndSpaces(s: string) {
    forall k :: 0 <= k < |s| ==> IsAsciiLetter(s[k]) || IsJsSpace(s[k])
  }

  /** `/^[8-9]\d{9}$/`, also written `/^[89]\d{9}$/`. */
  predicate PhonePattern(s: string) {
    |s| == 10 && ('8' == s[0] || s[0] == '9') && forall k :: 1 <= k < 10 ==> IsDigit(s[k])
  }

  /** A matching phone number is never blank. */
  lemma PhoneNotBlank(s: string)
    ensures PhonePattern(s) ==> !JsBlank(s)
  {
    if PhonePattern(s) {
      assert !IsJsSpace(s[0]);
    }
  }

  /** `(?=.*[a-z])`. */
  predicate HasLowerCase(s: string) {
    exists k :: 0 <= k < |s| && 'a' <= s[k] <= 'z'
  }

  /** `(?=.*[A-Z])`. */
  predicate HasUpperCase(s: string) {
    exists k :: 0 <= k < |s| && 'A' <= s[k] <= 'Z'
  }

  /** `(?=.*\d)`. */
  predicate HasDigit(s: string) {
    exists k :: 0 <= k < |s| && IsDigit(s[k])
  }

  predicate IsSpecial(c: char) {
    c == '@' || c == '$' || c == '!' || c == '%' || c == '*' || c == '?' || c == '&'
  }

  /** `(?=.*[@$!%*?&])`. */
  predicate HasSpecial(s: string) {
    exists k :: 0 <= k < |s| && IsSpecial(s[k])
  }

  /** `[^\s@]`. */
  predicate EmailChar(c: char) {
    !IsJsSpace(c) && c != '@'
  }

  predicate EmailChars(s: string) {
    forall k :: 0 <= k < |s| ==> EmailChar(s[k])
  }

  /**
   * `/^[^\s@]+@[^\s@]+\.[^\s@]+$/`: some '@' at `i` and some '.' at `j`
   * split the string into three non-empty runs of characters that are
   * neither whitespace nor '@'.
   */
  predicate EmailPattern(s: string) {
    exists i, j :: 0 < i && i + 1 < j < |s| - 1 && s[i] == '@' && s[j] == '.'
      && EmailChars(s[..i]) && EmailChars(s[i + 1..j]) && EmailChars(s[j + 1..])
  }

  /**
   * The same test read off in one scan: no whitespace, one '@' with
   * something before it, and a '.' after the character that follows the
   * '@' and before the last character.
   */
  predicate EmailCheck(s: string) {
    var at := LastIndexOf(s, '@');
    && at > 0
    && (forall k :: 0 <= k < |s| ==> !IsJsSpace(s[k]))
    && (forall k :: 0 <= k < at ==> s[k] != '@')
    && LastIndexOf(s[..|s| - 1], '.') > at + 1
  }

  /** The scan accepts exactly what the regular expression matches. */
  lemma EmailCheckMatchesPattern(s: string)
    ensures EmailCheck(s) <==> EmailPattern(s)
  {
    if EmailCheck(s) {
      var i := LastIndexOf(s, '@');
      var j := LastIndexOf(s[..|s| - 1], '.');
      assert s[j] == '.';
      assert EmailChars(s[..i]);
      var host, domain := s[i + 1..j], s[j + 1..];
      forall k | 0 <= k < |host|
        ensures EmailChar(host[k])
      {
        assert host[k] == s[i + 1 + k];
      }
      forall k | 0 <= k < |domain|
        ensures EmailChar(domain[k])
      {
        assert domain[k] == s[j + 1 + k];
      }
    }
    if EmailPattern(s) {
      var i, j :| 0 < i && i + 1 < j < |s| - 1 && s[i] == '@' && s[j] == '.'
        && EmailChars(s[..i]) && EmailChars(s[i + 1..j]) && EmailChars(s[j + 1..]);
      assert forall k :: 0 <= k < |s| && k != i && k != j ==> EmailChar(s[k]) by {
        forall k | 0 <= k < |s| && k != i && k != j
          ensures EmailChar(s[k])
        {
          if k < i {
            assert s[k] == s[..i][k];
          } else if k < j {
            assert s[k] == s[i + 1..j][k - i - 1];
          } else {
            assert s[k] == s[j + 1..][k - j - 1];
          }
        }
      }
      var at := LastIndexOf(s, '@');
      assert at == i;
      assert s[..|s| - 1][j] == '.';
      assert LastIndexOf(s[..|s| - 1], '.') >= j;
    }
  }

  /** A matching address is never blank. */
  lemma EmailNotBlank(s: string)
    ensures EmailPattern(s) ==> !JsBlank(s)
  {
    if EmailPattern(s) {
      var i, j :| 0 < i && i + 1 < j < |s| - 1 && s[i] == '@' && s[j] == '.'
        && EmailChars(s[..i]) && EmailChars(s[i + 1..j]) && EmailChars(s[j + 1..]);
      assert s[0] == s[..i][0];
    }
  }
}
