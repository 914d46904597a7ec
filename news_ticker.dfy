/**
 * The scrolling headline bar (`NewsTicker`): every five seconds the first
 * headline moves to the back, and the bar renders the list twice in a row
 * so the scroll can loop.
 */
module NewsTicker {

  /** The headlines the bar starts with. */
  const NewsItems: seq<string> := [
    "\U{1F680} Tesla shares surge 8% after new EV policy announcement",
    "\U{1F4F1} Tech stocks rally as AI innovation drives market optimism",
    "\U{1F4B0} Banking sector sees massive growth in Q4 earnings",
    "\U{26A1} Renewable energy stocks hit all-time high",
    "\U{1F3ED} Manufacturing index shows strongest growth in 5 years",
    "\U{1F4BC} Indian startups raise record \U{20B9}10B in funding this quarter"
  ]

  /**
   * One tick: the first headline is taken off and put at the back, unless
   * it is empty (a falsy string), in which case it is dropped.
   */
  function Tick(s: seq<string>): (r: seq<string>)
    ensures s == [] ==> r == []
    ensures s != [] && s[0] != "" ==> r == s[1..] + [s[0]]
    ensures s != [] && s[0] == "" ==> r == s[1..]
  {
    if |s| == 0 then []
    else
      var first := s[0];
      if first != "" then s[1..] + [first] else s[1..]
  }

  predicate NoneEmpty(s: seq<string>) {
    forall i :: 0 <= i < |s| ==> s[i] != ""
  }

  /** A tick over non-empty headlines is a rotation: same length, same headlines. */
  lemma TickPermutes(s: seq<string>)
    requires NoneEmpty(s)
    ensures |Tick(s)| == |s| && multiset(Tick(s)) == multiset(s) && NoneEmpty(Tick(s))
  {
    if s != [] {
      assert s == [s[0]] + s[1..];
    }
  }

  /** The list after k ticks. */
  function Ticks(s: seq<string>, k: nat): seq<string>
    decreases k
  {
    if k == 0 then s else Tick(Ticks(s, k - 1))
  }

  /** After k ticks, k <= n, the first k headlines have moved to the back in order. */
  lemma {:induction false} TicksRotate(s: seq<string>, k: nat)
    requires NoneEmpty(s) && k <= |s|
    ensures Ticks(s, k) == s[k..] + s[..k]
    decreases k
  {
    if k > 0 {
      TicksRotate(s, k - 1);
      var t := s[k - 1..] + s[..k - 1];
      assert t[0] == s[k - 1];
      assert t[1..] == s[k..] + s[..k - 1];
      assert s[..k] == s[..k - 1] + [s[k - 1]];
    }
  }

  /** n ticks over n non-empty headlines bring the original order back. */
  lemma FullCycle(s: seq<string>)
    requires NoneEmpty(s)
    ensures Ticks(s, |s|) == s
  {
    TicksRotate(s, |s|);
    assert s[|s|..] + s[..|s|] == s;
  }

  /** An empty headline is gone for good after one tick. */
  lemma EmptyHeadDropped(s: seq<string>)
    requires s != [] && s[0] == ""
    ensures |Tick(s)| == |s| - 1 && multiset(Tick(s)) == multiset(s) - multiset{""}
  {
    assert s == [s[0]] + s[1..];
  }

  /** What the bar renders: the list followed by itself. */
  function Rendered(s: seq<string>): (r: seq<string>)
    ensures |r| == 2 * |s|
    ensures forall i :: 0 <= i < |s| ==> r[i] == s[i] && r[i + |s|] == s[i]
  {
    s + s
  }

  class Ticker {
    var displayedNews: seq<string>

    constructor ()
      ensures displayedNews == NewsItems
    {
      displayedNews := NewsItems;
    }

    /** The five-second interval callback. */
    method Step()
      modifies this
      ensures displayedNews == Tick(old(displayedNews))
    {
      var newArray := displayedNews;
      if |newArray| > 0 {
        var first := newArray[0];
        newArray := newArray[1..];
        if first != "" {
          newArray := newArray + [first];
        }
      }
      displayedNews := newArray;
    }
  }
}
