/**
 * The name rule matcher of the clean command: the channel name is lowercased,
 * then it matches when some DELETE_IF_NAME_CONTAINS word occurs in it or it
 * starts with some DELETE_IF_NAME_STARTS_WITH word. The rule words are used
 * exactly as configured; only the name is lowercased.
 */
module NameRules {
  import opened Configuration

  /** Lowercasing of one character, restricted to the ASCII letters A-Z. */
  function LowerChar(ch: char): (r: char)
    ensures !('A' <= r <= 'Z')
    ensures 'a' <= r <= 'z' <==> 'a' <= ch <= 'z' || 'A' <= ch <= 'Z'
    ensures !('A' <= ch <= 'Z') ==> r == ch
    ensures 'A' <= ch <= 'Z' ==> r as int == ch as int - 'A' as int + 'a' as int
  {
    if 'A' <= ch <= 'Z' then (ch as int - 'A' as int + 'a' as int) as char else ch
  }

  /** Lowercasing of a whole name, character by character, on the ASCII letters. */
  function ToLower(s: string): (r: string)
    ensures |r| == |s|
    ensures forall i :: 0 <= i < |s| ==> r[i] == LowerChar(s[i])
    ensures forall i :: 0 <= i < |r| ==> !('A' <= r[i] <= 'Z')
  {
    seq(|s|, i requires 0 <= i < |s| => LowerChar(s[i]))
  }

  lemma ToLowerIdempotent(s: string)
    ensures ToLower(ToLower(s)) == ToLower(s)
  {
  }

  /** `p` is a prefix of `s`. */
  predicate IsPrefix(p: string, s: string)
  {
    |p| <= |s| && s[..|p|] == p
  }

  /** Reference meaning of the substring test: `w` occurs in `s` at some offset. */
  ghost predicate IsSubstring(w: string, s: string)
  {
    exists i :: 0 <= i <= |s| - |w| && IsPrefix(w, s[i..])
  }

  /** The substring test, as a left-to-right search over the offsets of `s`. */
  function Includes(s: string, w: string): (r: bool)
    ensures r <==> IsSubstring(w, s)
    decreases |s|
  {
    if |s| < |w| then false
    else if IsPrefix(w, s) then
      assert IsPrefix(w, s[0..]);
      true
    else
      var r := Includes(s[1..], w);
      if r then
        var i :| 0 <= i <= |s[1..]| - |w| && IsPrefix(w, s[1..][i..]);
        assert s[1..][i..] == s[i + 1..];
        r
      else
        assert !IsSubstring(w, s) by {
          forall i | 0 <= i <= |s| - |w|
            ensures !IsPrefix(w, s[i..])
          {
            if i > 0 {
              assert s[i..] == s[1..][i - 1..];
            }
          }
        }
        r
  }

  /** Some word of `words` occurs in `s`. */
  function SomeIncludes(words: seq<string>, s: string): (r: bool)
    ensures r <==> exists w :: w in words && IsSubstring(w, s)
  {
    if words == [] then false
    else Includes(s, words[0]) || SomeIncludes(words[1..], s)
  }

  /** `s` starts with some word of `words`. */
  function SomeStartsWith(words: seq<string>, s: string): (r: bool)
    ensures r <==> exists w :: w in words && IsPrefix(w, s)
  {
    if words == [] then false
    else IsPrefix(words[0], s) || SomeStartsWith(words[1..], s)
  }

  /** The clean command's verdict on a channel name: a contains-rule or a starts-with rule matches its lowercase form. */
  function MatchesName(cfg: Config, name: string): bool
  {
    var lower := ToLower(name);
    SomeIncludes(cfg.deleteIfNameContains, lower) || SomeStartsWith(cfg.deleteIfNameStartsWith, lower)
  }

  /**
   * The rule semantics: some contains-word is a substring of the lowercased
   * name, or the lowercased name starts with some starts-with word.
   */
  ghost predicate RuleMatch(cfg: Config, name: string)
  {
    || (exists w :: w in cfg.deleteIfNameContains && IsSubstring(w, ToLower(name)))
    || (exists w :: w in cfg.deleteIfNameStartsWith && IsPrefix(w, ToLower(name)))
  }

  /** The matcher decides exactly the rule semantics. */
  lemma MatchesNameMeaning(cfg: Config, name: string)
    ensures MatchesName(cfg, name) <==> RuleMatch(cfg, name)
  {
  }

  /** Matching ignores ASCII case in the name. */
  lemma MatchesNameIgnoresCase(cfg: Config, a: string, b: string)
    requires ToLower(a) == ToLower(b)
    ensures MatchesName(cfg, a) == MatchesName(cfg, b)
  {
  }

  /**
   * A rule word holding an upper-case ASCII letter is never found in a
   * lowercased name, neither as a substring nor as a prefix: rule words are
   * not lowercased.
   */
  lemma UppercaseWordNeverMatches(w: string, k: nat, name: string)
    requires k < |w| && 'A' <= w[k] <= 'Z'
    ensures !IsSubstring(w, ToLower(name))
    ensures !IsPrefix(w, ToLower(name))
  {
    var lower := ToLower(name);
    forall i | 0 <= i <= |lower| - |w|
      ensures !IsPrefix(w, lower[i..])
    {
      assert i + k < |lower| && !('A' <= lower[i + k] <= 'Z');
    }
    assert lower[0..] == lower;
  }
}
