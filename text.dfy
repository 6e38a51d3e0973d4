/** The Python `str` operations the programs rely on, for ASCII text:
    `sub in s`, `s.endswith(x)`, `s.lower()`, `s.strip()` and `s.replace(a, b)`. */
module Text {

  /** `c.isspace()` for an ASCII character: space, `\t` `\n` `\v` `\f` `\r`
      and the four separators `\x1c`..`\x1f`. The same set is `\s` in a
      `str` regular expression. */
  predicate IsSpace(c: char) {
    c == ' ' || ('\t' <= c <= '\r') || ('\U{1C}' <= c <= '\U{1F}')
  }

  /** `sub in s`: `sub` occurs in `s` at some position. */
  predicate Contains(s: string, sub: string) {
    exists i :: 0 <= i <= |s| - |sub| && sub <= s[i..]
  }

  /** `s.endswith(suffix)` */
  predicate EndsWith(s: string, suffix: string) {
    |suffix| <= |s| && s[|s| - |suffix|..] == suffix
  }

  /** Lower-casing of one ASCII character. */
  function LowerChar(c: char): (r: char)
    ensures 'A' <= c <= 'Z' ==> 'a' <= r <= 'z' && r as int - c as int == 32
    ensures !('A' <= c <= 'Z') ==> r == c
  {
    if 'A' <= c <= 'Z' then (c as int + 32) as char else c
  }

  /** `s.lower()`: every character lower-cased, nothing else changed. */
  function Lower(s: string): (r: string)
    ensures |r| == |s|
    ensures forall i :: 0 <= i < |s| ==> r[i] == LowerChar(s[i])
    decreases |s|
  {
    if s == [] then [] else [LowerChar(s[0])] + Lower(s[1..])
  }

  /** `s.lstrip()`: the suffix of `s` left after its leading whitespace. */
  function StripLeft(s: string): (r: string)
    ensures |r| <= |s|
    ensures forall i :: 0 <= i < |s| - |r| ==> IsSpace(s[i])
    ensures r == [] || !IsSpace(r[0])
    decreases |s|
  {
    if s != [] && IsSpace(s[0]) then StripLeft(s[1..]) else s
  }

  /** `s.rstrip()`: the prefix of `s` left before its trailing whitespace. */
  function StripRight(s: string): (r: string)
    ensures |r| <= |s|
    ensures forall i :: |r| <= i < |s| ==> IsSpace(s[i])
    ensures r == [] || !IsSpace(r[|r| - 1])
    decreases |s|
  {
    if s != [] && IsSpace(s[|s| - 1]) then StripRight(s[..|s| - 1]) else s
  }

  /** What `lstrip()` leaves is a suffix of its argument. */
  lemma {:induction false} StripLeftSuffix(s: string)
    ensures StripLeft(s) == s[|s| - |StripLeft(s)|..]
    decreases |s|
  {
    if s != [] && IsSpace(s[0]) {
      StripLeftSuffix(s[1..]);
      assert s[1..][|s| - 1 - |StripLeft(s)|..] == s[|s| - |StripLeft(s)|..];
    }
  }

  /** What `rstrip()` leaves is a prefix of its argument. */
  lemma {:induction false} StripRightPrefix(s: string)
    ensures StripRight(s) == s[..|StripRight(s)|]
    decreases |s|
  {
    if s != [] && IsSpace(s[|s| - 1]) {
      StripRightPrefix(s[..|s| - 1]);
      assert s[..|s| - 1][..|StripRight(s)|] == s[..|StripRight(s)|];
    }
  }

  /** `s.strip()`: `s` without its leading and trailing whitespace. */
  function Strip(s: string): (r: string)
    ensures |r| <= |s|
    ensures r == [] || (!IsSpace(r[0]) && !IsSpace(r[|r| - 1]))
    ensures var i := |s| - |StripLeft(s)|;
            i + |r| <= |s|
            && (forall k :: 0 <= k < |r| ==> r[k] == s[i + k])
            && (forall k :: 0 <= k < i ==> IsSpace(s[k]))
            && (forall k :: i + |r| <= k < |s| ==> IsSpace(s[k]))
  {
    StripLeftSuffix(s);
    StripRightPrefix(StripLeft(s));
    StripRight(StripLeft(s))
  }

  /** A string with no whitespace at either end is its own `strip()`. */
  lemma StripClean(s: string)
    requires s == [] || (!IsSpace(s[0]) && !IsSpace(s[|s| - 1]))
    ensures Strip(s) == s
  {
  }

  /** `s.replace(pat, rep)`: every non-overlapping occurrence of `pat`,
      found from left to right, replaced by `rep`. An empty `pat` puts
      `rep` before every character and at the end, as Python does. */
  function Replace(s: string, pat: string, rep: string): string
    decreases |s|
  {
    if pat == [] then
      if s == [] then rep else rep + [s[0]] + Replace(s[1..], pat, rep)
    else if |s| < |pat| then s
    else if pat <= s then rep + Replace(s[|pat|..], pat, rep)
    else [s[0]] + Replace(s[1..], pat, rep)
  }

  /** A string in which a non-empty `pat` does not occur is left as it is. */
  lemma {:induction false} ReplaceAbsent(s: string, pat: string, rep: string)
    requires pat != [] && !Contains(s, pat)
    ensures Replace(s, pat, rep) == s
    decreases |s|
  {
    if |pat| <= |s| {
      assert !(pat <= s[0..]);
      assert s[0..] == s;
      forall i | 0 <= i <= |s[1..]| - |pat|
        ensures !(pat <= s[1..][i..])
      {
        assert s[1..][i..] == s[i + 1..];
      }
      ReplaceAbsent(s[1..], pat, rep);
    }
  }

  /** A prefix that does not contain the first character of `pat` cannot
      take part in an occurrence, so replacing works on the rest alone. */
  lemma {:induction false} ReplaceSkip(s: string, t: string, pat: string, rep: string)
    requires pat != [] && pat[0] !in s
    ensures Replace(s + t, pat, rep) == s + Replace(t, pat, rep)
    decreases |s|
  {
    if s != [] {
      assert (s + t)[1..] == s[1..] + t;
      assert s[0] != pat[0];
      ReplaceSkip(s[1..], t, pat, rep);
      if |s + t| >= |pat| {
        assert !(pat <= s + t) by { assert (s + t)[0] == s[0]; }
        calc {
          Replace(s + t, pat, rep);
          [(s + t)[0]] + Replace((s + t)[1..], pat, rep);
          [s[0]] + Replace(s[1..] + t, pat, rep);
          [s[0]] + (s[1..] + Replace(t, pat, rep));
          { assert [s[0]] + s[1..] == s; }
          s + Replace(t, pat, rep);
        }
      } else {
        assert Replace(t, pat, rep) == t;
      }
    } else {
      assert s + t == t;
    }
  }
}
