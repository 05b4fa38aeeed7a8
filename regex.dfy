/** The pieces of Python's `re` the plugin's patterns use: character
    classes, greedy runs and `re.search`'s leftmost match. */
module Regex {
  import opened Wrappers

  /** `\w` on the characters up to U+00FF: ASCII letters, digits and '_',
      and the Latin-1 characters `str.isalnum()` accepts (the ordinal and
      superscript signs, the vulgar fractions, the micro sign and the
      letters from U+00C0 on, except the multiplication and division
      signs). */
  predicate IsWordChar(c: char) {
    'a' <= c <= 'z' || 'A' <= c <= 'Z' || '0' <= c <= '9' || c == '_'
    || c in {'\U{AA}', '\U{B2}', '\U{B3}', '\U{B5}', '\U{B9}', '\U{BA}', '\U{BC}', '\U{BD}', '\U{BE}'}
    || ('\U{C0}' <= c <= '\U{FF}' && c != '\U{D7}' && c != '\U{F7}')
  }

  /** `.`: anything but a newline. */
  predicate NotNewline(c: char) {
    c != '\n'
  }

  /** The length of the longest run of `ok` characters of `s` from `i`: what
      a greedy `+` or `*` takes. */
  function RunLength(s: string, i: nat, ok: char -> bool): (n: nat)
    ensures i + n <= |s| || n == 0
    ensures forall k :: i <= k < i + n ==> ok(s[k])
    ensures i + n < |s| ==> !ok(s[i + n])
    decreases |s| - i
  {
    if i < |s| && ok(s[i]) then 1 + RunLength(s, i + 1, ok) else 0
  }

  lemma RunLengthExact(s: string, i: nat, n: nat, ok: char -> bool)
    requires i + n <= |s| && (forall k :: i <= k < i + n ==> ok(s[k]))
    requires i + n == |s| || !ok(s[i + n])
    ensures RunLength(s, i, ok) == n
    decreases n
  {
    if n > 0 {
      RunLengthExact(s, i + 1, n - 1, ok);
    }
  }

  /** `re.search`: the match at the first index from `i` up to `end` where
      there is one. */
  function FirstMatch<T>(m: nat -> Option<T>, i: nat, end: nat): (r: Option<T>)
    decreases end + 1 - i
  {
    if i > end then None
    else if m(i).Some? then m(i)
    else FirstMatch(m, i + 1, end)
  }

  lemma {:induction false} FirstMatchAt<T>(m: nat -> Option<T>, i: nat, at: nat, end: nat)
    requires i <= at <= end && m(at).Some? && forall k :: i <= k < at ==> m(k).None?
    ensures FirstMatch(m, i, end) == m(at)
    decreases at - i
  {
    if i < at {
      FirstMatchAt(m, i + 1, at, end);
    }
  }

  lemma {:induction false} FirstMatchNone<T>(m: nat -> Option<T>, i: nat, end: nat)
    requires forall k :: i <= k <= end ==> m(k).None?
    ensures FirstMatch(m, i, end).None?
    decreases end + 1 - i
  {
    if i <= end {
      FirstMatchNone(m, i + 1, end);
    }
  }

  /** A match found is the match at some index with no match before it. */
  lemma {:induction false} FirstMatchFound<T>(m: nat -> Option<T>, i: nat, end: nat)
    requires FirstMatch(m, i, end).Some?
    ensures exists at :: i <= at <= end && m(at) == FirstMatch(m, i, end) && forall k :: i <= k < at ==> m(k).None?
    decreases end + 1 - i
  {
    if m(i).None? {
      FirstMatchFound(m, i + 1, end);
      var at :| i + 1 <= at <= end && m(at) == FirstMatch(m, i + 1, end) && forall k :: i + 1 <= k < at ==> m(k).None?;
      assert forall k :: i <= k < at ==> m(k).None?;
    }
  }

  /** No match found means no index in the range matches. */
  lemma {:induction false} FirstMatchMissed<T>(m: nat -> Option<T>, i: nat, k: nat, end: nat)
    requires FirstMatch(m, i, end).None? && i <= k <= end
    ensures m(k).None?
    decreases k - i
  {
    if i < k {
      FirstMatchMissed(m, i + 1, k, end);
    }
  }
}
