/**
 * The two string helpers the configuration uses to read its encoding setting:
 * java.lang.String.trim, which strips every leading and trailing character whose
 * code point is at most U+0020, and commons-lang3 StringUtils.trimToNull, which
 * maps null and strings that trim to "" to null.
 */
module StringUtils {
  import opened Wrappers

  /** The characters String.trim removes: every code point up to and including the space. */
  predicate IsTrimmable(c: char) {
    c <= ' '
  }

  predicate AllTrimmable(s: string) {
    forall k :: 0 <= k < |s| ==> IsTrimmable(s[k])
  }

  /** Neither end of s is a trimmable character. */
  predicate HasNoTrimmableEnds(s: string) {
    s == [] || (!IsTrimmable(s[0]) && !IsTrimmable(s[|s| - 1]))
  }

  /**
   * s[i..j] is what trimming s keeps: everything before i and from j on is
   * trimmable, and the piece itself is empty or starts and ends with a kept character.
   */
  ghost predicate KeptBetween(s: string, i: int, j: int) {
    0 <= i <= j <= |s| &&
    (forall k :: 0 <= k < i ==> IsTrimmable(s[k])) &&
    (forall k :: j <= k < |s| ==> IsTrimmable(s[k])) &&
    (i == j || (!IsTrimmable(s[i]) && !IsTrimmable(s[j - 1])))
  }

  /** r is s with its leading and trailing trimmable characters removed. */
  ghost predicate IsTrimOf(s: string, r: string) {
    exists i, j :: KeptBetween(s, i, j) && r == s[i..j]
  }

  /** The first index at or after i whose character is kept, or |s|. */
  function FirstKept(s: string, i: nat): (k: nat)
    requires i <= |s|
    ensures i <= k <= |s|
    ensures forall m :: i <= m < k ==> IsTrimmable(s[m])
    ensures k == |s| || !IsTrimmable(s[k])
    decreases |s| - i
  {
    if i < |s| && IsTrimmable(s[i]) then FirstKept(s, i + 1) else i
  }

  /** The end of the kept piece: the smallest k in [lo, j] after which s[..j] holds only trimmable characters. */
  function LastKept(s: string, lo: nat, j: nat): (k: nat)
    requires lo <= j <= |s|
    ensures lo <= k <= j
    ensures forall m :: k <= m < j ==> IsTrimmable(s[m])
    ensures k == lo || !IsTrimmable(s[k - 1])
    decreases j - lo
  {
    if lo < j && IsTrimmable(s[j - 1]) then LastKept(s, lo, j - 1) else j
  }

  /** String.trim: s without its leading and trailing characters up to U+0020. */
  function Trim(s: string): (r: string)
    ensures IsTrimOf(s, r)
  {
    var i := FirstKept(s, 0);
    var j := LastKept(s, i, |s|);
    assert KeptBetween(s, i, j);
    s[i..j]
  }

  /** Trimming keeps the same piece whichever bounds KeptBetween admits. */
  lemma KeptBetweenUnique(s: string, i: int, j: int, i': int, j': int)
    requires KeptBetween(s, i, j) && KeptBetween(s, i', j')
    ensures s[i..j] == s[i'..j']
  {
    // A non-empty piece starts and ends at a kept character, which the other
    // bounds cannot leave outside their piece; an empty piece means every
    // character is trimmable, so the other piece is empty too.
  }

  /** Trim is the one function whose result satisfies IsTrimOf. */
  lemma {:induction false} TrimIsUnique(s: string, r: string)
    requires IsTrimOf(s, r)
    ensures r == Trim(s)
  {
    var i, j :| KeptBetween(s, i, j) && r == s[i..j];
    var i', j' :| KeptBetween(s, i', j') && Trim(s) == s[i'..j'];
    KeptBetweenUnique(s, i, j, i', j');
  }

  /** The trimmed string is empty exactly when every character is trimmable, and otherwise has no trimmable end. */
  lemma {:induction false} TrimmedEnds(s: string)
    ensures Trim(s) == [] <==> AllTrimmable(s)
    ensures HasNoTrimmableEnds(Trim(s))
  {
    // Immediate from the bounds KeptBetween gives Trim(s).
  }

  /** Trimming twice changes nothing more than trimming once. */
  lemma {:induction false} TrimIdempotent(s: string)
    ensures Trim(Trim(s)) == Trim(s)
  {
    // Trim(s) has no trimmable end, so it keeps all of itself.
    TrimmedEnds(s);
  }

  /** StringUtils.trimToNull: null when s is null or trims to the empty string, else s trimmed. */
  function TrimToNull(s: Option<string>): (r: Option<string>)
    ensures r.None? <==> s.None? || AllTrimmable(s.value)
    ensures r.Some? ==> r.value != [] && HasNoTrimmableEnds(r.value) && IsTrimOf(s.value, r.value)
  {
    match s
    case None => None
    case Some(str) =>
      var t := Trim(str);
      TrimmedEnds(str);
      if t == [] then None else Some(t)
  }
}
