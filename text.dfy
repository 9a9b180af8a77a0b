/** The normalisation applied to a classifier answer before it is compared
    with "YES" and "NO": Python's `str.strip()` (remove leading and trailing
    whitespace) followed by `str.upper()`. */
module Text {

  /** The characters Python's `str.strip()` removes when given no argument:
      the characters for which `str.isspace()` holds. */
  predicate IsSpace(c: char)
  {
    var n := c as int;
    (0x09 <= n <= 0x0D) || (0x1C <= n <= 0x20) || n == 0x85 || n == 0xA0 ||
    n == 0x1680 || (0x2000 <= n <= 0x200A) || n == 0x2028 || n == 0x2029 ||
    n == 0x202F || n == 0x205F || n == 0x3000
  }

  predicate AllSpace(s: string)
  {
    forall i :: 0 <= i < |s| ==> IsSpace(s[i])
  }

  /** The position of the first non-space at or after `i` (or `|s|`). */
  function SkipSpace(s: string, i: nat): (k: nat)
    requires i <= |s|
    ensures i <= k <= |s|
    decreases |s| - i
  {
    if i < |s| && IsSpace(s[i]) then SkipSpace(s, i + 1) else i
  }

  /** The position just after the last non-space before `j` and at or
      after `lo` (or `lo`). */
  function BackSpace(s: string, lo: nat, j: nat): (k: nat)
    requires lo <= j <= |s|
    ensures lo <= k <= j
    decreases j
  {
    if lo < j && IsSpace(s[j - 1]) then BackSpace(s, lo, j - 1) else j
  }

  /** Python's `s.strip()`. */
  function Strip(s: string): string
  {
    var lo := SkipSpace(s, 0);
    s[lo..BackSpace(s, lo, |s|)]
  }

  /** Python's `c.upper()` for the characters that matter here: the ASCII
      lower-case letters, and U+017F LATIN SMALL LETTER LONG S, whose upper
      case is 'S'.  Every other character is left as it is. */
  function UpperChar(c: char): char
  {
    if 'a' <= c <= 'z' then (c as int - 'a' as int + 'A' as int) as char
    else if c == '\U{017F}' then 'S'
    else c
  }

  /** Python's `s.upper()`, character by character. */
  function Upper(s: string): string
  {
    if s == [] then [] else [UpperChar(s[0])] + Upper(s[1..])
  }

  /** `s.strip().upper()`, the normalisation of a classifier answer. */
  function Normalize(s: string): string
  {
    Upper(Strip(s))
  }

  /** A normalised answer the triage accepts. */
  predicate IsVerdictText(t: string)
  {
    t == "YES" || t == "NO"
  }

  /** SkipSpace passes over whitespace only, and stops at a non-space or at
      the end. */
  lemma {:induction false} SkipSpaceSpec(s: string, i: nat)
    requires i <= |s|
    ensures var k := SkipSpace(s, i);
      (forall m :: i <= m < k ==> IsSpace(s[m])) && (k < |s| ==> !IsSpace(s[k]))
    decreases |s| - i
  {
    if i < |s| && IsSpace(s[i]) {
      SkipSpaceSpec(s, i + 1);
    }
  }

  /** BackSpace passes back over whitespace only, and stops after a
      non-space or at `lo`. */
  lemma {:induction false} BackSpaceSpec(s: string, lo: nat, j: nat)
    requires lo <= j <= |s|
    ensures var k := BackSpace(s, lo, j);
      (forall m :: k <= m < j ==> IsSpace(s[m])) && (lo < k ==> !IsSpace(s[k - 1]))
    decreases j
  {
    if lo < j && IsSpace(s[j - 1]) {
      BackSpaceSpec(s, lo, j - 1);
    }
  }

  /** Strip leaves `s` with whitespace cut from both ends: `s` is the
      result padded on both sides with whitespace only, and the result is
      empty or begins and ends with a non-space. */
  lemma StripSpec(s: string)
    ensures var r := Strip(s);
      |r| <= |s| &&
      (exists i :: 0 <= i <= |s| - |r| && PaddedAt(s, r, i)) &&
      (r == [] || (!IsSpace(r[0]) && !IsSpace(r[|r| - 1])))
  {
    var lo := SkipSpace(s, 0);
    var hi := BackSpace(s, lo, |s|);
    SkipSpaceSpec(s, 0);
    BackSpaceSpec(s, lo, |s|);
    var r := s[lo..hi];
    assert s[lo..lo + |r|] == r;
    assert PaddedAt(s, r, lo);
  }

  /** `r` occurs in `s` at `i`, with only whitespace before and after it. */
  ghost predicate PaddedAt(s: string, r: string, i: int)
  {
    0 <= i <= |s| - |r| && s[i..i + |r|] == r && AllSpace(s[..i]) && AllSpace(s[i + |r|..])
  }

  /** Upper keeps the length and upper-cases each character in place, so
      no ASCII lower-case letter is left. */
  lemma {:induction false} UpperSpec(s: string)
    ensures |Upper(s)| == |s|
    ensures forall i :: 0 <= i < |s| ==> Upper(s)[i] == UpperChar(s[i])
    ensures forall i :: 0 <= i < |s| ==> !('a' <= Upper(s)[i] <= 'z')
    decreases |s|
  {
    if s != [] {
      UpperSpec(s[1..]);
      assert forall i :: 1 <= i < |s| ==> Upper(s)[i] == Upper(s[1..])[i - 1];
    }
  }

  /** SkipSpace over whitespace up to a non-space (or the end) at `k`. */
  lemma {:induction false} SkipSpaceTo(s: string, i: nat, k: nat)
    requires i <= k <= |s|
    requires forall m :: i <= m < k ==> IsSpace(s[m])
    requires k < |s| ==> !IsSpace(s[k])
    ensures SkipSpace(s, i) == k
    decreases k - i
  {
    if i < k {
      SkipSpaceTo(s, i + 1, k);
    }
  }

  /** BackSpace over whitespace back to just after a non-space (or `lo`) at `k`. */
  lemma {:induction false} BackSpaceTo(s: string, lo: nat, j: nat, k: nat)
    requires lo <= k <= j <= |s|
    requires forall m :: k <= m < j ==> IsSpace(s[m])
    requires lo < k ==> !IsSpace(s[k - 1])
    ensures BackSpace(s, lo, j) == k
    decreases j - k
  {
    if k < j {
      BackSpaceTo(s, lo, j - 1, k);
    }
  }

  /** Strip is determined by the padding: whatever surrounding whitespace a
      word with non-space ends carries, stripping gives back exactly the word. */
  lemma StripOfPadded(pre: string, w: string, post: string)
    requires AllSpace(pre) && AllSpace(post)
    requires w == [] || (!IsSpace(w[0]) && !IsSpace(w[|w| - 1]))
    ensures Strip(pre + w + post) == w
  {
    var s := pre + w + post;
    if w == [] {
      assert forall m :: 0 <= m < |s| ==> IsSpace(s[m]) by {
        forall m | 0 <= m < |s| ensures IsSpace(s[m]) {
          if m < |pre| { assert s[m] == pre[m]; } else { assert s[m] == post[m - |pre|]; }
        }
      }
      SkipSpaceTo(s, 0, |s|);
      BackSpaceTo(s, |s|, |s|, |s|);
    } else {
      var lo, hi := |pre|, |pre| + |w|;
      assert forall m :: 0 <= m < lo ==> IsSpace(s[m]) by {
        forall m | 0 <= m < lo ensures IsSpace(s[m]) { assert s[m] == pre[m]; }
      }
      assert s[lo] == w[0];
      SkipSpaceTo(s, 0, lo);
      assert forall m :: hi <= m < |s| ==> IsSpace(s[m]) by {
        forall m | hi <= m < |s| ensures IsSpace(s[m]) { assert s[m] == post[m - hi]; }
      }
      assert s[hi - 1] == w[|w| - 1];
      BackSpaceTo(s, lo, |s|, hi);
      assert s[lo..hi] == w;
    }
  }

  /** Any spelling of "yes" in any mix of upper and lower case, with any
      whitespace around it, normalises to "YES"; likewise for "no". */
  lemma NormalizeAcceptsCaseAndPadding(pre: string, w: string, post: string)
    requires AllSpace(pre) && AllSpace(post)
    requires Upper(w) == "YES" || Upper(w) == "NO"
    ensures Normalize(pre + w + post) == Upper(w)
  {
    UpperSpec(w);
    assert UpperChar(w[0]) == Upper(w)[0];
    assert UpperChar(w[|w| - 1]) == Upper(w)[|w| - 1];
    StripOfPadded(pre, w, post);
  }

  /** Example: a padded, mixed-case "Yes" is accepted as "YES". */
  lemma NormalizeExampleYes()
    ensures Normalize(" Yes ") == "YES"
  {
    NormalizeAcceptsCaseAndPadding(" ", "Yes", " ");
    assert " " + "Yes" + " " == " Yes ";
  }

  /** Example: a lower-case "no" is accepted as "NO". */
  lemma NormalizeExampleNo()
    ensures Normalize("no") == "NO"
  {
    NormalizeAcceptsCaseAndPadding("", "no", "");
    assert "" + "no" + "" == "no";
  }

  /** Example: "MAYBE" is not a verdict. */
  lemma NormalizeExampleMaybe()
    ensures !IsVerdictText(Normalize("MAYBE"))
  {
    StripOfPadded("", "MAYBE", "");
    assert "" + "MAYBE" + "" == "MAYBE";
  }
}
