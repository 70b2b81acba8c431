/**
  The dotted-address test that `ServerData.to_hostname` applies before a
  reverse lookup: the Ruby regular expression

      ^ \d+ \. \d+ \. \d+ . \d+ $

  Three details of that pattern are kept exactly:
  - the fourth separator is an unescaped `.`, so it accepts any character
    except a newline (a digit included);
  - `^` and `$` are LINE anchors in Ruby, so the pattern succeeds when some
    `\n`-separated line of the input matches, not only the whole input;
  - `\d+` has no upper bound, so there is no 0..255 octet check.

  `RegexMatches` is the declarative reading (a span bounded by line anchors
  that splits into the pattern's pieces); `AnyLineMatches` is a scanner that
  decides it; `AnyLineMatchesIffRegex` proves the two agree.
 */
module AddressPattern {

  predicate IsDigit(c: char) {
    '0' <= c <= '9'
  }

  predicate AllDigits(s: string) {
    forall i :: 0 <= i < |s| ==> IsDigit(s[i])
  }

  /** What `\d+` matches. */
  predicate Digits(s: string) {
    |s| > 0 && AllDigits(s)
  }

  /** `line` is exactly `\d+ \. \d+ \. \d+ . \d+`, with the three separators
      at positions i, j and k. */
  ghost predicate SplitsAt(line: string, i: int, j: int, k: int) {
    && 0 <= i < j < k < |line|
    && Digits(line[..i]) && line[i] == '.'
    && Digits(line[i + 1..j]) && line[j] == '.'
    && Digits(line[j + 1..k]) && line[k] != '\n'
    && Digits(line[k + 1..])
  }

  /** The pattern between the anchors matches `line` exactly. */
  ghost predicate FullMatch(line: string) {
    exists i, j, k :: SplitsAt(line, i, j, k)
  }

  /** `^` holds at position lo of s. */
  ghost predicate LineStartAt(s: string, lo: int) {
    lo == 0 || (0 < lo <= |s| && s[lo - 1] == '\n')
  }

  /** `$` holds at position hi of s. */
  ghost predicate LineEndAt(s: string, hi: int) {
    hi == |s| || (0 <= hi < |s| && s[hi] == '\n')
  }

  /** s[lo..hi] runs from a `^` to a `$` and matches the pattern between. */
  ghost predicate MatchSpan(s: string, lo: int, hi: int) {
    0 <= lo <= hi <= |s| && LineStartAt(s, lo) && LineEndAt(s, hi) && FullMatch(s[lo..hi])
  }

  /** Ruby's `s =~ /^\d+\.\d+\.\d+.\d+$/` is non-nil. */
  ghost predicate RegexMatches(s: string) {
    exists lo, hi :: MatchSpan(s, lo, hi)
  }

  /** Length of the longest all-digit prefix of s. */
  function DigitRun(s: string): (n: nat)
    ensures n <= |s|
    ensures AllDigits(s[..n])
    ensures n < |s| ==> !IsDigit(s[n])
  {
    if |s| == 0 || !IsDigit(s[0]) then 0 else 1 + DigitRun(s[1..])
  }

  /** Position of the first newline of s, or |s| when there is none. */
  function FirstNewline(s: string): (n: nat)
    ensures n <= |s|
    ensures n < |s| ==> s[n] == '\n'
    ensures forall i :: 0 <= i < n ==> s[i] != '\n'
  {
    if |s| == 0 || s[0] == '\n' then 0 else 1 + FirstNewline(s[1..])
  }

  /** Decides `\d+ . \d+` on all of t. When t has a non-digit, it must be the
      free separator; when t is all digits, any inner digit can play it. */
  predicate TailMatches(t: string) {
    var p := DigitRun(t);
    if p == |t| then |t| >= 3
    else 1 <= p && t[p] != '\n' && Digits(t[p + 1..])
  }

  /** Decides `\d+ \. \d+ \. \d+ . \d+` on all of line. */
  predicate LineMatches(line: string) {
    var p := DigitRun(line);
    && 0 < p < |line| && line[p] == '.'
    && var rest := line[p + 1..];
    var q := DigitRun(rest);
    && 0 < q < |rest| && rest[q] == '.'
    && TailMatches(rest[q + 1..])
  }

  /** Decides the regular expression: some line of s matches. */
  predicate AnyLineMatches(s: string)
    decreases |s|
  {
    var k := FirstNewline(s);
    LineMatches(s[..k]) || (k < |s| && AnyLineMatches(s[k + 1..]))
  }

  /** The digit run is the only prefix that is all digits and stops at a
      non-digit. */
  lemma DigitRunAt(s: string, n: int)
    requires 0 <= n <= |s| && AllDigits(s[..n])
    requires n == |s| || !IsDigit(s[n])
    ensures DigitRun(s) == n
  {
    var m := DigitRun(s);
    assert forall i :: 0 <= i < n ==> IsDigit(s[i]) by {
      forall i | 0 <= i < n
        ensures IsDigit(s[i])
      {
        assert s[..n][i] == s[i];
      }
    }
    assert forall i :: 0 <= i < m ==> IsDigit(s[i]) by {
      forall i | 0 <= i < m
        ensures IsDigit(s[i])
      {
        assert s[..m][i] == s[i];
      }
    }
  }

  /** `\d+ . \d+` matches t with the free separator at position k. */
  ghost predicate TailSplitsAt(t: string, k: int) {
    0 <= k < |t| && Digits(t[..k]) && t[k] != '\n' && Digits(t[k + 1..])
  }

  lemma TailMatchesSplits(t: string) returns (k: int)
    requires TailMatches(t)
    ensures TailSplitsAt(t, k)
  {
    var p := DigitRun(t);
    if p == |t| {
      k := 1;
      assert t[..p] == t;
      assert t[k + 1..][0] == t[2];
      assert t[..k][0] == t[0];
    } else {
      k := p;
    }
  }

  lemma SplitsTailMatches(t: string, k: int)
    requires TailSplitsAt(t, k)
    ensures TailMatches(t)
  {
  }

  lemma LineMatchesSplits(line: string) returns (i: int, j: int, k: int)
    requires LineMatches(line)
    ensures SplitsAt(line, i, j, k)
  {
    i := DigitRun(line);
    var rest := line[i + 1..];
    var q := DigitRun(rest);
    var t := rest[q + 1..];
    var k' := TailMatchesSplits(t);
    j := i + 1 + q;
    k := j + 1 + k';
    assert line[i + 1..j] == rest[..q];
    assert line[j + 1..k] == t[..k'];
    assert line[k + 1..] == t[k' + 1..];
  }

  lemma SplitsLineMatches(line: string, i: int, j: int, k: int)
    requires SplitsAt(line, i, j, k)
    ensures LineMatches(line)
  {
    DigitRunAt(line, i);
    var rest := line[i + 1..];
    assert rest[..j - i - 1] == line[i + 1..j];
    DigitRunAt(rest, j - i - 1);
    var t := rest[j - i..];
    assert t == line[j + 1..];
    var k' := k - j - 1;
    assert t[..k'] == line[j + 1..k];
    assert t[k' + 1..] == line[k + 1..];
    SplitsTailMatches(t, k');
  }

  /** The scanner for one line agrees with the declarative pattern. */
  lemma LineMatchesIff(line: string)
    ensures LineMatches(line) <==> FullMatch(line)
  {
    if LineMatches(line) {
      var i, j, k := LineMatchesSplits(line);
    }
    if FullMatch(line) {
      var i, j, k :| SplitsAt(line, i, j, k);
      SplitsLineMatches(line, i, j, k);
    }
  }

  /** A matching line contains no newline, so a match never spans two lines. */
  lemma FullMatchHasNoNewline(line: string, n: int)
    requires FullMatch(line) && 0 <= n < |line|
    ensures line[n] != '\n'
  {
  }

  /** A span of the suffix after the first line is a span of the whole input. */
  lemma ShiftSpan(s: string, k: int, lo': int, hi': int)
    requires 0 <= k < |s| && s[k] == '\n'
    requires MatchSpan(s[k + 1..], lo', hi')
    ensures MatchSpan(s, k + 1 + lo', k + 1 + hi')
  {
    var t := s[k + 1..];
    assert t[lo'..hi'] == s[k + 1 + lo'..k + 1 + hi'];
    if lo' > 0 {
      assert t[lo' - 1] == s[k + lo'];
    }
    if hi' < |t| {
      assert t[hi'] == s[k + 1 + hi'];
    }
  }

  /** A match found by the scanner is a span the regular expression matches. */
  lemma {:induction false} AnyLineMatchesSpan(s: string) returns (lo: int, hi: int)
    requires AnyLineMatches(s)
    ensures MatchSpan(s, lo, hi)
    decreases |s|, 1
  {
    var k := FirstNewline(s);
    if k < |s| && AnyLineMatches(s[k + 1..]) {
      lo, hi := LaterLineSpan(s, k);
    } else {
      LineMatchesIff(s[..k]);
      lo, hi := 0, k;
      assert s[lo..hi] == s[..k];
    }
  }

  /** A match the scanner finds after the newline at k. */
  lemma {:induction false} LaterLineSpan(s: string, k: int) returns (lo: int, hi: int)
    requires 0 <= k < |s| && s[k] == '\n' && AnyLineMatches(s[k + 1..])
    ensures MatchSpan(s, lo, hi)
    decreases |s|, 0
  {
    var lo', hi' := AnyLineMatchesSpan(s[k + 1..]);
    ShiftSpan(s, k, lo', hi');
    lo, hi := k + 1 + lo', k + 1 + hi';
  }

  /** A match of the regular expression is found by the scanner. */
  lemma {:induction false} RegexMatchesAnyLine(s: string, lo: int, hi: int)
    requires MatchSpan(s, lo, hi)
    ensures AnyLineMatches(s)
    decreases |s|
  {
    var k := FirstNewline(s);
    if lo == 0 {
      if k < hi {
        FullMatchHasNoNewline(s[lo..hi], k);
      }
      assert s[..k] == s[lo..hi];
      LineMatchesIff(s[..k]);
    } else {
      var t := s[k + 1..];
      var lo', hi' := lo - k - 1, hi - k - 1;
      assert t[lo'..hi'] == s[lo..hi];
      assert LineStartAt(t, lo') by {
        if lo' > 0 {
          assert t[lo' - 1] == s[lo - 1];
        }
      }
      assert LineEndAt(t, hi') by {
        if hi < |s| {
          assert t[hi'] == s[hi];
        }
      }
      RegexMatchesAnyLine(t, lo', hi');
    }
  }

  /** The scanner decides Ruby's line-anchored match. */
  lemma AnyLineMatchesIffRegex(s: string)
    ensures AnyLineMatches(s) <==> RegexMatches(s)
  {
    if AnyLineMatches(s) {
      var lo, hi := AnyLineMatchesSpan(s);
    }
    if RegexMatches(s) {
      var lo, hi :| MatchSpan(s, lo, hi);
      RegexMatchesAnyLine(s, lo, hi);
    }
  }
}
