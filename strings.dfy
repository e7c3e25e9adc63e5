/** The ordinal string operations the source uses: prefix and suffix tests,
    substring search, lower-casing, `Split` on a character and `Join`. */
module Strings {
  import opened Wrappers

  predicate StartsWith(s: string, prefix: string)
  {
    |prefix| <= |s| && s[..|prefix|] == prefix
  }

  predicate EndsWith(s: string, suffix: string)
  {
    |suffix| <= |s| && s[|s| - |suffix|..] == suffix
  }

  /** `s.Contains(part)`: `part` occurs in `s` at some offset. */
  predicate Contains(s: string, part: string)
    decreases |s|
  {
    StartsWith(s, part) || (|s| > 0 && Contains(s[1..], part))
  }

  lemma {:induction false} ContainsAt(s: string, part: string, k: nat)
    requires k + |part| <= |s| && s[k..k + |part|] == part
    ensures Contains(s, part)
    decreases k
  {
    if k > 0 {
      assert s[1..][k - 1..k - 1 + |part|] == s[k..k + |part|];
      ContainsAt(s[1..], part, k - 1);
    }
  }

  /** A string contains no part longer than itself, and a part as long as
      itself only when the two are equal. */
  lemma {:induction false} ContainsLength(s: string, part: string)
    requires Contains(s, part)
    ensures |part| <= |s|
    ensures |part| == |s| ==> s == part
    decreases |s|
  {
    if !StartsWith(s, part) {
      ContainsLength(s[1..], part);
    }
  }

  lemma PrefixOfConcat(a: string, b: string)
    ensures StartsWith(a + b, a) && (a + b)[|a|..] == b
  {
    assert (a + b)[..|a|] == a;
  }

  lemma SuffixOfConcat(a: string, b: string)
    ensures EndsWith(a + b, b) && (a + b)[..|a|] == a
  {
    assert (a + b)[|a|..] == b;
  }

  /** `s` without `prefix`, when it starts with it. */
  function StripPrefix(s: string, prefix: string): (r: Option<string>)
    ensures r.Some? <==> StartsWith(s, prefix)
    ensures r.Some? ==> s == prefix + r.value
  {
    if StartsWith(s, prefix) then
      assert s == s[..|prefix|] + s[|prefix|..];
      Some(s[|prefix|..])
    else None
  }

  /** `s` without `suffix`, when it ends with it. */
  function StripSuffix(s: string, suffix: string): (r: Option<string>)
    ensures r.Some? <==> EndsWith(s, suffix)
    ensures r.Some? ==> s == r.value + suffix
  {
    if EndsWith(s, suffix) then
      assert s == s[..|s| - |suffix|] + s[|s| - |suffix|..];
      Some(s[..|s| - |suffix|])
    else None
  }

  lemma StripPrefixOfConcat(prefix: string, rest: string)
    ensures StripPrefix(prefix + rest, prefix) == Some(rest)
  {
    PrefixOfConcat(prefix, rest);
  }

  lemma StripSuffixOfConcat(rest: string, suffix: string)
    ensures StripSuffix(rest + suffix, suffix) == Some(rest)
  {
    SuffixOfConcat(rest, suffix);
  }

  /** A string without the first character of `part` does not contain `part`. */
  lemma {:induction false} NotContainsWithoutFirst(s: string, part: string)
    requires |part| > 0 && part[0] !in s
    ensures !Contains(s, part)
    decreases |s|
  {
    if |part| <= |s| {
      assert s[..|part|][0] == s[0];
    }
    if |s| > 0 {
      NotContainsWithoutFirst(s[1..], part);
    }
  }

  function ToLowerChar(c: char): (r: char)
  {
    if 'A' <= c <= 'Z' then (c as int + 32) as char else c
  }

  /** `s.ToLower()` on the ASCII letters; every other character is kept. */
  function ToLower(s: string): (r: string)
    ensures |r| == |s|
    ensures forall i :: 0 <= i < |s| ==> r[i] == ToLowerChar(s[i])
  {
    seq(|s|, i requires 0 <= i < |s| => ToLowerChar(s[i]))
  }

  /** `string.Join(separator, pieces)`: the pieces with one separator between
      each two neighbours; no pieces make the empty string. */
  function Join(pieces: seq<string>, separator: string): (r: string)
    decreases |pieces|
  {
    if |pieces| == 0 then ""
    else if |pieces| == 1 then pieces[0]
    else Join(pieces[..|pieces| - 1], separator) + separator + pieces[|pieces| - 1]
  }

  /** `s.Split(separator)`: the maximal runs of `s` between separators, empty
      runs included, so there is always one more piece than separators. */
  function Split(s: string, separator: char): (pieces: seq<string>)
    ensures |pieces| >= 1
    ensures forall i :: 0 <= i < |pieces| ==> separator !in pieces[i]
    ensures |pieces| == 1 <==> separator !in s
    decreases |s|
  {
    if s == [] then [""]
    else
      var init, c := s[..|s| - 1], s[|s| - 1];
      assert s == init + [c];
      var p := Split(init, separator);
      if c == separator then p + [""]
      else p[..|p| - 1] + [p[|p| - 1] + [c]]
  }

  /** Joining the pieces of a split with the separator gives back the string. */
  lemma {:induction false} JoinSplit(s: string, separator: char)
    ensures Join(Split(s, separator), [separator]) == s
    decreases |s|
  {
    if s != [] {
      var init, c := s[..|s| - 1], s[|s| - 1];
      assert s == init + [c];
      var p := Split(init, separator);
      JoinSplit(init, separator);
      if c == separator {
        assert (p + [""])[..|p|] == p;
      } else {
        var q := p[..|p| - 1] + [p[|p| - 1] + [c]];
        assert q == Split(s, separator);
        if |p| > 1 {
          assert q[..|q| - 1] == p[..|p| - 1];
        }
      }
    }
  }
}
