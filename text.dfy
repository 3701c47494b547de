/**
 * The two text operations the petshop search uses: trimming surrounding
 * white space and lower-casing. Both are over ASCII: the white-space
 * characters are tab, line feed, vertical tab, form feed, carriage return
 * and space, and only `A`..`Z` have a lower-case form.
 */
module Text {

  predicate IsSpace(c: char)
  {
    c == ' ' || '\t' <= c <= '\r'
  }

  /** The first position at or after `k` that does not hold white space, or `|s|`. */
  function SpaceEnd(s: string, k: nat): (n: nat)
    requires k <= |s|
    ensures k <= n <= |s|
    ensures forall i | k <= i < n :: IsSpace(s[i])
    ensures n < |s| ==> !IsSpace(s[n])
    decreases |s| - k
  {
    if k == |s| || !IsSpace(s[k]) then k else SpaceEnd(s, k + 1)
  }

  /** The position just after the last non-space character before `k`, or 0. */
  function SpaceStart(s: string, k: nat): (n: nat)
    requires k <= |s|
    ensures n <= k
    ensures forall i | n <= i < k :: IsSpace(s[i])
    ensures n > 0 ==> !IsSpace(s[n - 1])
  {
    if k == 0 || !IsSpace(s[k - 1]) then k else SpaceStart(s, k - 1)
  }

  /** `strings.TrimSpace`: the string without white space at either end. */
  function TrimSpace(s: string): (r: string)
    ensures |r| <= |s|
    ensures r == [] || (!IsSpace(r[0]) && !IsSpace(r[|r| - 1]))
    ensures var lo := SpaceEnd(s, 0); lo + |r| <= |s| && r == s[lo..lo + |r|]
    ensures var lo := SpaceEnd(s, 0); forall i | 0 <= i < |s| && !(lo <= i < lo + |r|) :: IsSpace(s[i])
  {
    var lo := SpaceEnd(s, 0);
    var hi := SpaceStart(s, |s|);
    if lo < hi then s[lo..hi] else []
  }

  /** A string with no white space at its ends is its own trimming. */
  lemma TrimSpaceOfTrimmed(t: string)
    requires t == [] || (!IsSpace(t[0]) && !IsSpace(t[|t| - 1]))
    ensures TrimSpace(t) == t
  {
    if t != [] {
      assert SpaceEnd(t, 0) == 0 && SpaceStart(t, |t|) == |t|;
      assert t[0..|t|] == t;
    }
  }

  /** Trimming twice is trimming once. */
  lemma TrimSpaceIdempotent(s: string)
    ensures TrimSpace(TrimSpace(s)) == TrimSpace(s)
  {
    TrimSpaceOfTrimmed(TrimSpace(s));
  }

  /** `unicode.ToLower` restricted to ASCII. */
  function LowerChar(c: char): (d: char)
    ensures 'A' <= c <= 'Z' ==> d as int == c as int + 32
    ensures !('A' <= c <= 'Z') ==> d == c
    ensures !('A' <= d <= 'Z')
  {
    if 'A' <= c <= 'Z' then (c as int + 32) as char else c
  }

  /** `strings.ToLower`: every character lower-cased, the length kept. */
  function ToLower(s: string): (r: string)
    ensures |r| == |s| && forall i | 0 <= i < |s| :: r[i] == LowerChar(s[i])
  {
    seq(|s|, i requires 0 <= i < |s| => LowerChar(s[i]))
  }

  lemma ToLowerIdempotent(s: string)
    ensures ToLower(ToLower(s)) == ToLower(s)
  {
  }

  /** Lower-casing leaves white space where it is, so it commutes with trimming. */
  lemma LowerCharKeepsSpace(c: char)
    ensures IsSpace(LowerChar(c)) <==> IsSpace(c)
  {
  }

  lemma {:induction false} SpaceEndToLower(s: string, k: nat)
    requires k <= |s|
    ensures SpaceEnd(ToLower(s), k) == SpaceEnd(s, k)
    decreases |s| - k
  {
    if k < |s| {
      LowerCharKeepsSpace(s[k]);
      if IsSpace(s[k]) {
        SpaceEndToLower(s, k + 1);
      }
    }
  }

  lemma {:induction false} SpaceStartToLower(s: string, k: nat)
    requires k <= |s|
    ensures SpaceStart(ToLower(s), k) == SpaceStart(s, k)
  {
    if k > 0 {
      LowerCharKeepsSpace(s[k - 1]);
      if IsSpace(s[k - 1]) {
        SpaceStartToLower(s, k - 1);
      }
    }
  }

  lemma ToLowerSlice(s: string, lo: nat, hi: nat)
    requires lo <= hi <= |s|
    ensures ToLower(s)[lo..hi] == ToLower(s[lo..hi])
  {
  }

  lemma TrimSpaceToLower(s: string)
    ensures TrimSpace(ToLower(s)) == ToLower(TrimSpace(s))
  {
    SpaceEndToLower(s, 0);
    SpaceStartToLower(s, |s|);
    var lo := SpaceEnd(s, 0);
    var hi := SpaceStart(s, |s|);
    if lo < hi {
      ToLowerSlice(s, lo, hi);
    } else {
      assert ToLower([]) == [];
    }
  }
}
