/** ASCII text helpers: the `str.lower()` and `in` (substring) operations the
    services use for keyword and search matching. */
module Text {

  /** `str.lower()` on one ASCII character. */
  function LowerChar(c: char): char
  {
    if 'A' <= c <= 'Z' then (c as int + 32) as char else c
  }

  /** `str.lower()` restricted to ASCII. */
  function Lower(s: string): (r: string)
    ensures |r| == |s|
    ensures forall i :: 0 <= i < |s| ==> r[i] == LowerChar(s[i])
    ensures forall i :: 0 <= i < |r| ==> !('A' <= r[i] <= 'Z')
  {
    seq(|s|, i requires 0 <= i < |s| => LowerChar(s[i]))
  }

  /** `[x.lower() for x in items]` */
  function LowerAll(items: seq<string>): (r: seq<string>)
    ensures |r| == |items|
    ensures forall k :: 0 <= k < |items| ==> r[k] == Lower(items[k])
  {
    seq(|items|, k requires 0 <= k < |items| => Lower(items[k]))
  }

  predicate StartsWith(s: string, prefix: string)
  {
    |prefix| <= |s| && s[..|prefix|] == prefix
  }

  /** Python's `needle in hay` for strings: scan for a position where `needle` starts. */
  predicate Contains(hay: string, needle: string)
    decreases |hay|
  {
    StartsWith(hay, needle) || (|hay| > 0 && Contains(hay[1..], needle))
  }

  /** Reference definition of an occurrence: `needle` sits in `hay` at index `i`. */
  ghost predicate OccursAt(hay: string, needle: string, i: int)
  {
    0 <= i && i + |needle| <= |hay| && hay[i..i + |needle|] == needle
  }

  /** The scanning search finds exactly the occurrences of the reference definition. */
  lemma {:induction false} ContainsIffOccurs(hay: string, needle: string)
    ensures Contains(hay, needle) <==> exists i :: OccursAt(hay, needle, i)
    decreases |hay|
  {
    if Contains(hay, needle) {
      if StartsWith(hay, needle) {
        assert OccursAt(hay, needle, 0);
      } else {
        ContainsIffOccurs(hay[1..], needle);
        var j :| OccursAt(hay[1..], needle, j);
        assert hay[1..][j..j + |needle|] == hay[j + 1..j + 1 + |needle|];
        assert OccursAt(hay, needle, j + 1);
      }
    }
    if exists i :: OccursAt(hay, needle, i) {
      var i :| OccursAt(hay, needle, i);
      if i > 0 {
        assert hay[1..][i - 1..i - 1 + |needle|] == hay[i..i + |needle|];
        assert OccursAt(hay[1..], needle, i - 1);
        ContainsIffOccurs(hay[1..], needle);
      } else {
        assert StartsWith(hay, needle);
      }
    }
  }

  /** The empty string is a substring of every string (`"" in s` is always true). */
  lemma EmptyContained(hay: string)
    ensures Contains(hay, "")
  {
    assert StartsWith(hay, "");
  }

  /** `any(w in hay for w in needles)` */
  predicate AnyContained(needles: seq<string>, hay: string)
  {
    |needles| > 0 && (Contains(hay, needles[0]) || AnyContained(needles[1..], hay))
  }

  lemma {:induction false} AnyContainedIff(needles: seq<string>, hay: string)
    ensures AnyContained(needles, hay) <==> exists k :: 0 <= k < |needles| && Contains(hay, needles[k])
  {
    if |needles| > 0 {
      AnyContainedIff(needles[1..], hay);
      if exists k :: 0 <= k < |needles| && Contains(hay, needles[k]) {
        var k :| 0 <= k < |needles| && Contains(hay, needles[k]);
        if k > 0 {
          assert needles[1..][k - 1] == needles[k];
        }
      }
      if AnyContained(needles[1..], hay) {
        var k :| 0 <= k < |needles[1..]| && Contains(hay, needles[1..][k]);
        assert Contains(hay, needles[k + 1]);
      }
    }
  }
}
