/** The few `String.prototype` operations the client relies on, with
    ECMAScript semantics: `includes`, `slice` (negative and clamped indices)
    and `trim`. */
module JsString {
  import opened Outcome

  /** `t` occurs in `s` starting at position `i`. */
  predicate OccursAt(s: string, t: string, i: int) {
    0 <= i && i + |t| <= |s| && s[i..i + |t|] == t
  }

  /** `s.includes(t)`, computed by scanning left to right. */
  function Includes(s: string, t: string): (r: bool)
    ensures r <==> exists i :: OccursAt(s, t, i)
    decreases |s|
  {
    if t <= s then
      assert OccursAt(s, t, 0);
      true
    else if |s| == 0 then
      false
    else
      var r := Includes(s[1..], t);
      assert forall i :: OccursAt(s[1..], t, i) ==> OccursAt(s, t, i + 1);
      assert forall i :: OccursAt(s, t, i) && i > 0 ==> OccursAt(s[1..], t, i - 1);
      r
  }

  /** ECMAScript's clamping of a relative index against a length: negative
      positions count from the end. An integer has no `-0`, so `-0` is 0. */
  function RelativeIndex(i: int, len: nat): (r: nat)
    ensures r <= len
    ensures 0 <= i ==> r == if i <= len then i else len
    ensures i < 0 ==> r == if -i <= len then len + i else 0
  {
    if i < 0 then (if len + i < 0 then 0 else len + i)
    else if i > len then len
    else i
  }

  /** `s.slice(start, end)`; `end` is `None` when the argument is omitted. */
  function Slice(s: string, start: int, end: Option<int>): string {
    var from := RelativeIndex(start, |s|);
    var to := if end.None? then |s| else RelativeIndex(end.value, |s|);
    if from < to then s[from..to] else ""
  }

  /** A slice from 0 is a prefix of length `min(n, |s|)` for `n >= 0`. */
  lemma SlicePrefix(s: string, n: int)
    requires n >= 0
    ensures Slice(s, 0, Some(n)) == s[..if n <= |s| then n else |s|]
  {
  }

  /** A slice from `-n` is a suffix of length `min(n, |s|)` for `n >= 1`,
      and a slice from 0 (which is also `-0`) is the whole string. */
  lemma SliceSuffix(s: string, n: int)
    requires n >= 0
    ensures n >= 1 ==> Slice(s, -n, None) == s[|s| - (if n <= |s| then n else |s|)..]
    ensures n == 0 ==> Slice(s, -n, None) == s
  {
  }

  /** Every slice is a contiguous piece of the string. */
  lemma SliceIsInfix(s: string, start: int, end: Option<int>)
    ensures exists i, j :: 0 <= i <= j <= |s| && Slice(s, start, end) == s[i..j]
  {
    var from := RelativeIndex(start, |s|);
    var to := if end.None? then |s| else RelativeIndex(end.value, |s|);
    if from >= to {
      assert Slice(s, start, end) == s[0..0];
    } else {
      assert Slice(s, start, end) == s[from..to];
    }
  }

  /** ECMAScript WhiteSpace and LineTerminator code points, the set `trim`
      removes: TAB, LF, VT, FF, CR, SPACE, NBSP, OGHAM SPACE MARK, the
      U+2000..U+200A spaces, LINE and PARAGRAPH SEPARATOR, NNBSP, MMSP,
      IDEOGRAPHIC SPACE and the BYTE ORDER MARK. */
  predicate IsWhitespace(c: char) {
    var x := c as int;
    (0x09 <= x <= 0x0D) || x == 0x20 || x == 0xA0 || x == 0x1680
    || (0x2000 <= x <= 0x200A) || x == 0x2028 || x == 0x2029
    || x == 0x202F || x == 0x205F || x == 0x3000 || x == 0xFEFF
  }

  predicate IsBlank(s: string) {
    forall i :: 0 <= i < |s| ==> IsWhitespace(s[i])
  }

  function TrimStart(s: string): (r: string)
    ensures |r| <= |s|
    decreases |s|
  {
    if |s| > 0 && IsWhitespace(s[0]) then TrimStart(s[1..]) else s
  }

  function TrimEnd(s: string): (r: string)
    ensures |r| <= |s|
    decreases |s|
  {
    if |s| > 0 && IsWhitespace(s[|s| - 1]) then TrimEnd(s[..|s| - 1]) else s
  }

  /** `s.trim()`. */
  function Trim(s: string): string {
    TrimEnd(TrimStart(s))
  }

  /** `trim` leaves nothing exactly when every character is whitespace. */
  lemma TrimEmptyIffBlank(s: string)
    ensures Trim(s) == "" <==> IsBlank(s)
  {
    TrimStartEmptyIffBlank(s);
    var t := TrimStart(s);
    TrimStartKeepsNonBlankHead(s);
    if t != "" {
      assert !IsWhitespace(t[0]);
      TrimEndKeepsHead(t);
    }
  }

  lemma {:induction false} TrimStartEmptyIffBlank(s: string)
    ensures TrimStart(s) == "" <==> IsBlank(s)
    decreases |s|
  {
    if |s| > 0 {
      TrimStartEmptyIffBlank(s[1..]);
      if IsWhitespace(s[0]) {
        assert IsBlank(s) <==> IsBlank(s[1..]) by {
          assert forall i :: 0 < i < |s| ==> s[i] == s[1..][i - 1];
        }
      } else {
        assert !IsBlank(s);
      }
    }
  }

  lemma {:induction false} TrimStartKeepsNonBlankHead(s: string)
    ensures TrimStart(s) != "" ==> !IsWhitespace(TrimStart(s)[0])
    decreases |s|
  {
    if |s| > 0 && IsWhitespace(s[0]) {
      TrimStartKeepsNonBlankHead(s[1..]);
    }
  }

  lemma {:induction false} TrimEndKeepsHead(s: string)
    requires s != "" && !IsWhitespace(s[0])
    ensures TrimEnd(s) != ""
    decreases |s|
  {
    if |s| > 1 && IsWhitespace(s[|s| - 1]) {
      TrimEndKeepsHead(s[..|s| - 1]);
    }
  }
}
