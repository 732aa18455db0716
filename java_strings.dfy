/**
 * The few pieces of Java string behaviour the adapter relies on: how `null` is
 * rendered by `String.format` and string concatenation, and Apache Commons'
 * `StringUtils.substringAfterLast`, which is built on `String.lastIndexOf`.
 */
module JavaStrings {
  import opened Wrappers

  /** `String.format("%s", x)` and `"" + x` both print a null reference as "null". */
  function Render(s: Option<string>): (r: string)
    ensures s.Some? ==> r == s.value
    ensures s.None? ==> r == "null"
  {
    match s
    case Some(v) => v
    case None => "null"
  }

  /** `sep` occurs in `s` starting at index `i`. */
  predicate Occurs(s: string, sep: string, i: int) {
    0 <= i && i + |sep| <= |s| && s[i..i + |sep|] == sep
  }

  predicate Contains(s: string, sep: string) {
    exists i :: 0 <= i <= |s| && Occurs(s, sep, i)
  }

  /** The largest index `k <= i` at which `sep` occurs in `s`, or -1 when there is none. */
  function LastIndexAtMost(s: string, sep: string, i: int): (k: int)
    requires -1 <= i <= |s|
    decreases i + 1
    ensures -1 <= k <= i
    ensures k >= 0 ==> Occurs(s, sep, k)
    ensures forall j :: k < j <= i ==> !Occurs(s, sep, j)
  {
    if i < 0 then -1
    else if Occurs(s, sep, i) then i
    else LastIndexAtMost(s, sep, i - 1)
  }

  /** `String.lastIndexOf(sep)`: the start of the last occurrence of `sep`, or -1. */
  function LastIndexOf(s: string, sep: string): (k: int)
    ensures -1 <= k <= |s|
    ensures k >= 0 ==> Occurs(s, sep, k)
    ensures forall j :: k < j ==> !Occurs(s, sep, j)
    ensures k == -1 <==> !Contains(s, sep)
  {
    if |sep| > |s| then -1 else LastIndexAtMost(s, sep, |s| - |sep|)
  }

  /**
   * `StringUtils.substringAfterLast(str, separator)`: the text after the last
   * occurrence of the separator; the empty string when the separator is empty or
   * does not occur, or when the string is empty.
   */
  function SubstringAfterLast(str: string, sep: string): (r: string)
    ensures |sep| > 0 && Contains(str, sep) ==>
              var k := LastIndexOf(str, sep); str == str[..k] + sep + r
    ensures !Contains(str, sep) ==> r == ""
    ensures |sep| == 0 ==> r == ""
  {
    if |str| == 0 then str
    else if |sep| == 0 then ""
    else
      var pos := LastIndexOf(str, sep);
      if pos == -1 || pos == |str| - |sep| then "" else str[pos + |sep|..]
  }

  /** The suffix after the last separator never contains the separator itself. */
  lemma AfterLastHasNoSeparator(str: string, sep: string)
    requires |sep| > 0
    ensures !Contains(SubstringAfterLast(str, sep), sep)
  {
    var r := SubstringAfterLast(str, sep);
    if |sep| > 0 && Contains(str, sep) {
      var k := LastIndexOf(str, sep);
      assert r == str[k + |sep|..];
      // An occurrence in the suffix would be a later occurrence in `str`.
      forall j | 0 <= j <= |r| ensures Occurs(r, sep, j) ==> Occurs(str, sep, k + |sep| + j) {
        if j + |sep| <= |r| {
          assert str[k + |sep| + j..k + |sep| + j + |sep|] == r[j..j + |sep|];
        }
      }
    }
  }

  /**
   * A marker whose first character occurs nowhere else in it, followed by a tail
   * that does not contain the marker, is the last occurrence of the marker.
   */
  lemma LastIndexOfMarker(head: string, sep: string, tail: string)
    requires |sep| > 0 && sep[0] !in sep[1..]
    requires !Contains(tail, sep)
    ensures LastIndexOf(head + sep + tail, sep) == |head|
    ensures SubstringAfterLast(head + sep + tail, sep) == tail
  {
    var s := head + sep + tail;
    assert s[|head|..|head| + |sep|] == sep;
    assert Occurs(s, sep, |head|);
    var k := LastIndexOf(s, sep);
    if k >= |head| + |sep| {
      var j := k - |head| - |sep|;
      assert tail[j..j + |sep|] == s[k..k + |sep|];
      assert Occurs(tail, sep, j);
    }
  }
}
