/**
 * The client's email validator, the regular expression
 * `^[^\s@]+@[^\s@]+\.[^\s@]+$`, and a structural reading of it.
 */
module EmailCheck {
  import opened JsString

  /** `[^\s@]`: any character but whitespace and '@'. */
  predicate Plain(c: char) {
    c != '@' && !IsWhitespace(c)
  }

  predicate AllPlain(s: string) {
    forall i :: 0 <= i < |s| ==> Plain(s[i])
  }

  /** The pattern matched with its '@' at `i` and its escaped '.' at `j`: three non-empty plain runs. */
  predicate SplitAt(s: string, i: int, j: int) {
    && 0 < i && i + 1 < j && j + 1 < |s|
    && s[i] == '@' && s[j] == '.'
    && AllPlain(s[..i]) && AllPlain(s[i + 1..j]) && AllPlain(s[j + 1..])
  }

  /** `/^[^\s@]+@[^\s@]+\.[^\s@]+$/.test(s)`: some way of splitting `s` matches the pattern. */
  ghost predicate MatchesPattern(s: string) {
    exists i, j :: SplitAt(s, i, j)
  }

  /** Occurrences of `c` in `s`. */
  function Count(s: string, c: char): (n: nat)
    ensures n <= |s|
  {
    if s == [] then 0 else (if s[0] == c then 1 else 0) + Count(s[1..], c)
  }

  /** The first position of `c` in `s`, or `|s|` when there is none. */
  function IndexOf(s: string, c: char): (r: nat)
    ensures r <= |s|
    ensures r < |s| ==> s[r] == c
    ensures forall k :: 0 <= k < r ==> s[k] != c
  {
    if s == [] then 0 else if s[0] == c then 0 else 1 + IndexOf(s[1..], c)
  }

  /** `d` has a '.' that is neither its first nor its last character. */
  predicate HasInnerDot(d: string) {
    exists k :: 1 <= k < |d| - 1 && d[k] == '.'
  }

  /**
   * validateEmail, read structurally: exactly one '@', no whitespace,
   * something before the '@', and an inner '.' in the part after it.
   */
  predicate ValidateEmail(s: string)
    ensures ValidateEmail(s) ==> |s| >= 5 && '@' in s && NoWhitespace(s)
  {
    var at := IndexOf(s, '@');
    && Count(s, '@') == 1
    && NoWhitespace(s)
    && 0 < at < |s|
    && HasInnerDot(s[at + 1..])
  }

  /** The structural reading and the regular expression accept exactly the same strings. */
  lemma ValidateEmailIsPattern(s: string)
    ensures ValidateEmail(s) <==> MatchesPattern(s)
  {
    if ValidateEmail(s) {
      var at := IndexOf(s, '@');
      var d := s[at + 1..];
      var k :| 1 <= k < |d| - 1 && d[k] == '.';
      var j := at + 1 + k;
      CountSplit(s, at);
      NoneCounted(s[at + 1..], '@');
      assert s[at + 1..j] == d[..k] && s[j + 1..] == d[k + 1..];
      assert SplitAt(s, at, j);
    }
    if MatchesPattern(s) {
      var i, j :| SplitAt(s, i, j);
      PatternIsStructural(s, i, j);
    }
  }

  lemma PatternIsStructural(s: string, i: int, j: int)
    requires SplitAt(s, i, j)
    ensures ValidateEmail(s)
  {
    assert forall k :: 0 <= k < i ==> s[k] == s[..i][k];
    assert IndexOf(s, '@') == i;
    assert forall k :: i < k < |s| ==> s[k] != '@' by {
      forall k | i < k < |s| ensures s[k] != '@' {
        if k < j { assert s[k] == s[i + 1..j][k - i - 1]; }
        else if k > j { assert s[k] == s[j + 1..][k - j - 1]; }
      }
    }
    assert forall k :: 0 <= k < i ==> s[..i][k] != '@';
    NoneCounted(s[..i], '@');
    NoneCounted(s[i + 1..], '@');
    CountSplit(s, i);
    forall k | 0 <= k < |s| ensures !IsWhitespace(s[k]) {
      if k < i { assert s[k] == s[..i][k]; }
      else if i < k < j { assert s[k] == s[i + 1..j][k - i - 1]; }
      else if k > j { assert s[k] == s[j + 1..][k - j - 1]; }
    }
    var d := s[i + 1..];
    assert d[j - i - 1] == '.';
  }

  /** Counting across the character at `k`: what is before, the character itself, and what is after. */
  lemma {:induction false} CountSplit(s: string, k: nat)
    requires k < |s|
    ensures Count(s, s[k]) == Count(s[..k], s[k]) + 1 + Count(s[k + 1..], s[k])
  {
    if k > 0 {
      CountSplit(s[1..], k - 1);
      assert s[1..][..k - 1] == s[1..k];
      assert s[1..][k..] == s[k + 1..];
      assert s[1..][k - 1] == s[k];
    }
  }

  /** A string with no count of `c` has no `c` anywhere, and conversely. */
  lemma {:induction false} NoneCounted(s: string, c: char)
    ensures Count(s, c) == 0 <==> forall k :: 0 <= k < |s| ==> s[k] != c
  {
    if s != [] {
      NoneCounted(s[1..], c);
      if Count(s, c) == 0 {
        forall k | 0 <= k < |s| ensures s[k] != c {
          if k > 0 { assert s[k] == s[1..][k - 1]; }
        }
      }
    }
  }

  /** A valid email is untouched by `trim()`, and not blank. */
  lemma ValidEmailIsTrimmed(s: string)
    requires ValidateEmail(s)
    ensures Trim(s) == s && s != ""
  {
    TrimClean(s);
  }
}
