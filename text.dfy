/** Python's `str.strip()` with no arguments: remove leading and trailing
    whitespace, where whitespace is what `str.isspace()` accepts. */
module Text {

  /** The characters Python's `str.isspace()` accepts: the ASCII controls
      TAB..CR and FS..US, SPACE, NEL, NO-BREAK SPACE and the Unicode spaces
      and separators. */
  predicate IsSpace(c: char) {
    ('\t' <= c <= '\r') || ('\U{1C}' <= c <= '\U{1F}') || c == ' '
    || c == '\U{85}' || c == '\U{A0}' || c == '\U{1680}'
    || ('\U{2000}' <= c <= '\U{200A}') || c == '\U{2028}' || c == '\U{2029}'
    || c == '\U{202F}' || c == '\U{205F}' || c == '\U{3000}'
  }

  predicate AllSpace(s: string) {
    forall i :: 0 <= i < |s| ==> IsSpace(s[i])
  }

  /** Neither starts nor ends with whitespace. */
  predicate IsStripped(s: string) {
    s == [] || (!IsSpace(s[0]) && !IsSpace(s[|s| - 1]))
  }

  /** The index of the first non-whitespace character of `s` at or after
      `i`, or `|s|` if there is none. */
  function SkipForward(s: string, i: nat): (j: nat)
    requires i <= |s|
    ensures i <= j <= |s| && (j == |s| || !IsSpace(s[j]))
    ensures forall k :: i <= k < j ==> IsSpace(s[k])
    decreases |s| - i
  {
    if i == |s| || !IsSpace(s[i]) then i else SkipForward(s, i + 1)
  }

  /** The index just past the last non-whitespace character of `s` before
      `j`, or 0 if there is none. */
  function SkipBackward(s: string, j: nat): (i: nat)
    requires j <= |s|
    ensures i <= j && (i == 0 || !IsSpace(s[i - 1]))
    ensures forall k :: i <= k < j ==> IsSpace(s[k])
  {
    if j == 0 || !IsSpace(s[j - 1]) then j else SkipBackward(s, j - 1)
  }

  /** `s.strip()`: the part of `s` between its leading and its trailing
      whitespace. */
  function Strip(s: string): (r: string)
    ensures |r| <= |s| && IsStripped(r)
    ensures r == [] <==> AllSpace(s)
  {
    var b := SkipForward(s, 0);
    if b == |s| then []
    else
      var e := SkipBackward(s, |s|);
      assert b < e;
      s[b..e]
  }

  /** Where a run of whitespace ends going forward is determined by the
      first non-whitespace character. */
  lemma SkipForwardAt(s: string, i: nat, j: nat)
    requires i <= j <= |s| && (j == |s| || !IsSpace(s[j]))
    requires forall k :: i <= k < j ==> IsSpace(s[k])
    ensures SkipForward(s, i) == j
  {
  }

  /** The same going backward. */
  lemma SkipBackwardAt(s: string, i: nat, j: nat)
    requires i <= j <= |s| && (i == 0 || !IsSpace(s[i - 1]))
    requires forall k :: i <= k < j ==> IsSpace(s[k])
    ensures SkipBackward(s, j) == i
  {
  }

  /** Strip keeps a contiguous piece of its input and drops only
      whitespace on either side of it. */
  lemma StripIsInfix(s: string) returns (k: nat)
    ensures k + |Strip(s)| <= |s| && Strip(s) == s[k..k + |Strip(s)|]
    ensures forall i :: 0 <= i < k ==> IsSpace(s[i])
    ensures forall i :: k + |Strip(s)| <= i < |s| ==> IsSpace(s[i])
  {
    k := SkipForward(s, 0);
    if k == |s| {
      k := 0;
    }
  }

  /** Uniqueness: whatever whitespace surrounds a stripped text, Strip
      gives back exactly that text. */
  lemma StripPadded(pre: string, mid: string, post: string)
    requires AllSpace(pre) && IsStripped(mid) && AllSpace(post)
    ensures Strip(pre + mid + post) == mid
  {
    var s := pre + mid + post;
    if mid == [] {
      assert forall i :: 0 <= i < |s| ==> IsSpace(s[i]) by {
        forall i | 0 <= i < |s| ensures IsSpace(s[i]) {
          if i < |pre| { assert s[i] == pre[i]; } else { assert s[i] == post[i - |pre|]; }
        }
      }
    } else {
      var b, e := |pre|, |pre| + |mid|;
      assert s[b] == mid[0] && s[e - 1] == mid[|mid| - 1];
      assert forall k :: 0 <= k < b ==> s[k] == pre[k];
      assert forall k :: e <= k < |s| ==> s[k] == post[k - e];
      SkipForwardAt(s, 0, b);
      SkipBackwardAt(s, e, |s|);
      assert s[b..e] == mid;
    }
  }

  /** Stripping twice is stripping once. */
  lemma StripIdempotent(s: string)
    ensures Strip(Strip(s)) == Strip(s)
  {
    StripOfStripped(Strip(s));
  }

  /** A text without surrounding whitespace is its own Strip. */
  lemma StripOfStripped(m: string)
    requires IsStripped(m)
    ensures Strip(m) == m
  {
    if m != [] {
      SkipForwardAt(m, 0, 0);
      SkipBackwardAt(m, |m|, |m|);
    }
  }

  /** Whitespace appended to a text (such as the newline a Tk text widget
      adds in `get("1.0", END)`) does not change what Strip gives. */
  lemma StripIgnoresTrailingSpace(s: string, w: string)
    requires AllSpace(w)
    ensures Strip(s + w) == Strip(s)
  {
    var t := s + w;
    assert forall k :: |s| <= k < |t| ==> t[k] == w[k - |s|];
    assert forall k :: 0 <= k < |s| ==> t[k] == s[k];
    var b := SkipForward(s, 0);
    if b == |s| {
      assert AllSpace(t);
    } else {
      SkipForwardAt(t, 0, b);
      var e := SkipBackward(s, |s|);
      SkipBackwardAt(t, e, |t|);
      SliceOfAppend(s, w, b, e);
    }
  }

  lemma SliceOfAppend<T>(s: seq<T>, w: seq<T>, b: nat, e: nat)
    requires b <= e <= |s|
    ensures (s + w)[b..e] == s[b..e]
  {
    assert forall k :: b <= k < e ==> (s + w)[k] == s[k];
  }
}
