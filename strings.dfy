/** The two Python string operations the order and subarray logic depends on:
    `str.upper()` and the substring test `needle in hay`. */
module PyStrings {

  /** `c.upper()` for one character, over the ASCII letters. */
  function UpperChar(c: char): (u: char)
    ensures 'a' <= c <= 'z' ==> u as int == c as int - 32
    ensures !('a' <= c <= 'z') ==> u == c
  {
    if 'a' <= c <= 'z' then (c as int - 32) as char else c
  }

  /** `s.upper()`, letter by letter. */
  function Upper(s: string): (u: string)
    ensures |u| == |s|
    ensures forall i :: 0 <= i < |s| ==> u[i] == UpperChar(s[i])
  {
    seq(|s|, i requires 0 <= i < |s| => UpperChar(s[i]))
  }

  /** `needle in hay`: some window of `hay` spells `needle`. */
  function Contains(hay: string, needle: string): bool
    decreases |hay|
  {
    if |hay| < |needle| then false
    else hay[..|needle|] == needle || Contains(hay[1..], needle)
  }

  /** The window of `hay` starting at `i` spells `needle`. */
  predicate WindowAt(hay: string, needle: string, i: nat) {
    i + |needle| <= |hay| && hay[i..i + |needle|] == needle
  }

  /** `Contains` finds exactly the windows that spell the needle. */
  lemma {:induction false} ContainsWindow(hay: string, needle: string)
    ensures Contains(hay, needle) <==> exists i: nat :: WindowAt(hay, needle, i)
    decreases |hay|
  {
    if |hay| < |needle| {
      assert forall i: nat :: !WindowAt(hay, needle, i);
    } else if hay[..|needle|] == needle {
      assert WindowAt(hay, needle, 0);
    } else {
      ContainsWindow(hay[1..], needle);
      if Contains(hay[1..], needle) {
        var i: nat :| WindowAt(hay[1..], needle, i);
        assert hay[i + 1..i + 1 + |needle|] == hay[1..][i..i + |needle|];
        assert WindowAt(hay, needle, i + 1);
      }
      if exists i: nat :: WindowAt(hay, needle, i) {
        var i: nat :| WindowAt(hay, needle, i);
        assert i > 0;
        assert hay[1..][i - 1..i - 1 + |needle|] == hay[i..i + |needle|];
        assert WindowAt(hay[1..], needle, i - 1);
      }
    }
  }

  /** Every string contains itself. */
  lemma ContainsSelf(s: string)
    ensures Contains(s, s)
  {
    assert s[..|s|] == s;
  }
}
