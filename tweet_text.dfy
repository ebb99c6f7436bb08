/**
 * The string surgery applied to every tweet before it becomes a row:
 * splitting the text at the first link, and trimming the trailing `Z`
 * off an ISO-8601 timestamp. Both are Python slices, so out-of-range and
 * negative bounds never raise; the lemmas below spell out what the slices
 * yield in each case.
 */
module TweetText {
  import opened Wrappers
  import opened PySlicing

  /** The substring whose first occurrence is taken to start a tweet's link. */
  const LinkMarker: string := "http"

  /** The `tweet_text` and `tweet_url` columns cut from one tweet's text. */
  datatype TextSplit = TextSplit(tweetText: string, tweetUrl: string)

  /** The two columns cut around index `i`: `text[:i-1]` and `text[i:]`. */
  function SplitAt(text: string, i: int): (r: TextSplit)
    ensures r.tweetText <= text
    ensures |r.tweetUrl| <= |text| && r.tweetUrl == text[|text| - |r.tweetUrl|..]
  {
    SliceTo(text, i - 1);
    SliceFrom(text, i);
    TextSplit(Slice(text, None, Some(i - 1)), Slice(text, Some(i), None))
  }

  /** With `i = text.find('http')`: `tweet_text = text[:i-1]` and
      `tweet_url = text[i:]`. The text part is always a prefix of the
      text and the url part always a suffix, whatever `i` is. */
  function SplitText(text: string): (r: TextSplit)
    ensures r.tweetText <= text
    ensures |r.tweetUrl| <= |text| && r.tweetUrl == text[|text| - |r.tweetUrl|..]
  {
    SplitAt(text, Find(text, LinkMarker))
  }

  /** `s[:-1]`: the string without its last character; empty stays empty. */
  function TrimLast(s: string): (r: string)
    ensures |r| == if |s| == 0 then 0 else |s| - 1
    ensures |s| > 0 ==> r + [s[|s| - 1]] == s
  {
    SliceTo(s, -1);
    Slice(s, None, Some(-1))
  }

  /** When the link first starts at `i >= 1`, the split loses exactly the
      character just before it (normally a space): the text part, that
      character and the url part put back together give the whole text; the
      url part starts with the marker and the text part holds no marker. */
  lemma SplitAroundMarker(text: string, i: nat)
    requires 1 <= i && OccursAt(text, LinkMarker, i)
    requires forall j: nat :: j < i ==> !OccursAt(text, LinkMarker, j)
    ensures var r := SplitText(text);
      && r.tweetText + [text[i - 1]] + r.tweetUrl == text
      && |r.tweetText| + |r.tweetUrl| == |text| - 1
      && |r.tweetUrl| >= |LinkMarker| && r.tweetUrl[..|LinkMarker|] == LinkMarker
      && Absent(r.tweetText, LinkMarker)
  {
    FindFirst(text, LinkMarker, i);
    assert SplitText(text) == SplitAt(text, i);
    SliceTo(text, i - 1);
    SliceFrom(text, i);
    assert SplitAt(text, i) == TextSplit(text[..i - 1], text[i..]);
    CutBeforeFirst(text, LinkMarker, i);
  }

  /** Cutting `s` around the character before the first occurrence of `sub`
      at `i`: the pieces reassemble `s`, the tail starts with `sub`, and the
      head holds no occurrence of `sub`. */
  lemma CutBeforeFirst(s: string, sub: string, i: nat)
    requires 1 <= i && OccursAt(s, sub, i)
    requires forall j: nat :: j < i ==> !OccursAt(s, sub, j)
    ensures s[..i - 1] + [s[i - 1]] + s[i..] == s
    ensures |s[i..]| >= |sub| && s[i..][..|sub|] == sub
    ensures Absent(s[..i - 1], sub)
  {
    assert s[..i - 1] + [s[i - 1]] + s[i..] == s;
    assert s[i..][..|sub|] == s[i..i + |sub|];
    var head := s[..i - 1];
    forall j: nat | j <= |head|
      ensures !OccursAt(head, sub, j)
    {
      if j + |sub| <= |head| {
        assert head[j..j + |sub|] == s[j..j + |sub|];
        assert !OccursAt(s, sub, j);
      }
    }
  }

  /** `find` returns the first index at which the substring occurs. */
  lemma FindFirst(s: string, sub: string, i: nat)
    requires OccursAt(s, sub, i)
    requires forall j: nat :: j < i ==> !OccursAt(s, sub, j)
    ensures Find(s, sub) == i
  {
  }

  /** With no link, `find` gives -1, so the text part is `text[:-2]` (all but
      the last two characters) and the url part is `text[-1:]` (the last
      character); neither raises. */
  lemma SplitWithoutMarker(text: string)
    requires Absent(text, LinkMarker)
    ensures SplitText(text).tweetText == if |text| <= 2 then [] else text[..|text| - 2]
    ensures SplitText(text).tweetUrl == if |text| == 0 then [] else [text[|text| - 1]]
  {
    assert Find(text, LinkMarker) == -1;
    SplitBeforeStart(text);
  }

  /** Cutting around index -1 keeps `text[:-2]` and `text[-1:]`. */
  lemma SplitBeforeStart(text: string)
    ensures SplitAt(text, -1).tweetText == if |text| <= 2 then [] else text[..|text| - 2]
    ensures SplitAt(text, -1).tweetUrl == if |text| == 0 then [] else [text[|text| - 1]]
  {
    var n := |text|;
    assert SplitAt(text, -1).tweetText == Slice(text, None, Some(-2));
    assert SplitAt(text, -1).tweetUrl == Slice(text, Some(-1), None);
    if n <= 2 {
      assert ClampBound(-2, n) == 0;
    } else {
      assert ClampBound(-2, n) == n - 2;
    }
    if n > 0 {
      assert ClampBound(-1, n) == n - 1;
      assert text[n - 1..n] == [text[n - 1]];
    }
  }

  /** A text that starts with the link gives `find` = 0: the url part is the
      whole text and the text part is `text[:-1]`, the link minus its last
      character. */
  lemma SplitAtStart(text: string)
    requires OccursAt(text, LinkMarker, 0)
    ensures |text| >= |LinkMarker|
    ensures SplitText(text).tweetText == text[..|text| - 1]
    ensures SplitText(text).tweetUrl == text
  {
    assert Find(text, LinkMarker) == 0;
    assert SplitText(text) == SplitAt(text, 0);
    SliceTo(text, -1);
    SliceFrom(text, 0);
  }
}
