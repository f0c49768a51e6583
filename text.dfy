/** String helpers with the semantics of the ECMAScript built-ins the front end calls. */
module Text {

  /** ECMAScript WhiteSpace and LineTerminator code points: the characters that
      `String.prototype.trim` removes from both ends of a string. */
  predicate IsJsSpace(c: char) {
    || c == '\t' || c == '\n' || c == '\U{000B}' || c == '\U{000C}' || c == '\r'
    || c == ' ' || c == '\U{00A0}' || c == '\U{1680}'
    || ('\U{2000}' <= c <= '\U{200A}')
    || c == '\U{2028}' || c == '\U{2029}' || c == '\U{202F}' || c == '\U{205F}'
    || c == '\U{3000}' || c == '\U{FEFF}'
  }

  /** The characters of `s` at positions lo..hi-1 are all white space. */
  ghost predicate SpaceBetween(s: string, lo: int, hi: int)
    requires 0 <= lo && hi <= |s|
  {
    forall i :: lo <= i < hi ==> IsJsSpace(s[i])
  }

  /** The first position at or after `from` that does not hold white space. */
  function SkipSpaceForward(s: string, from: nat): (k: nat)
    requires from <= |s|
    ensures from <= k <= |s|
    ensures SpaceBetween(s, from, k)
    ensures k == |s| || !IsJsSpace(s[k])
    decreases |s| - from
  {
    if from == |s| || !IsJsSpace(s[from]) then from else SkipSpaceForward(s, from + 1)
  }

  /** The end of the last character before `upto` (and not before `lo`) that is not white space. */
  function SkipSpaceBackward(s: string, lo: nat, upto: nat): (k: nat)
    requires lo <= upto <= |s|
    ensures lo <= k <= upto
    ensures SpaceBetween(s, k, upto)
    ensures k == lo || !IsJsSpace(s[k - 1])
    decreases upto
  {
    if upto == lo || !IsJsSpace(s[upto - 1]) then upto else SkipSpaceBackward(s, lo, upto - 1)
  }

  /** `String.prototype.trim`: the slice of `s` left after dropping white space only
      from both ends; it neither starts nor ends with white space, and it is empty
      exactly when `s` is all white space. */
  function Trim(s: string): (r: string)
    ensures exists lo :: 0 <= lo <= |s| - |r| && r == s[lo..lo + |r|]
                         && SpaceBetween(s, 0, lo) && SpaceBetween(s, lo + |r|, |s|)
    ensures r == [] || (!IsJsSpace(r[0]) && !IsJsSpace(r[|r| - 1]))
    ensures r == [] <==> SpaceBetween(s, 0, |s|)
  {
    var lo := SkipSpaceForward(s, 0);
    var hi := SkipSpaceBackward(s, lo, |s|);
    assert lo < hi ==> !IsJsSpace(s[lo]) && !IsJsSpace(s[hi - 1]);
    s[lo..hi]
  }

  /** Trimming twice is trimming once. */
  lemma TrimIdempotent(s: string)
    ensures Trim(Trim(s)) == Trim(s)
  {
    var r := Trim(s);
    assert SkipSpaceForward(r, 0) == 0;
    assert SkipSpaceBackward(r, 0, |r|) == |r|;
  }
}
