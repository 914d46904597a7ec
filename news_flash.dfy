/**
 * The breaking-news pop-up (`NewsFlashModal`): a carousel over a fixed
 * list of headlines, stepped forwards by a timer or by the buttons and
 * backwards by the "Previous" button, with one highlighted progress dot.
 */
module NewsFlash {
  import opened Common

  datatype NewsItem = NewsItem(id: int, title: string, kind: string, impact: string, time: string)

  /** The headlines the carousel cycles through. */
  const BreakingNews: seq<NewsItem> := [
    NewsItem(1, "\U{1F680} Tesla shares surge 8% after new EV policy announcement", "bullish", "High", "2 minutes ago"),
    NewsItem(2, "\U{1F4F1} Tech stocks rally as AI innovation drives market optimism", "bullish", "Medium", "5 minutes ago"),
    NewsItem(3, "\U{1F4B0} Banking sector sees massive growth in Q4 earnings", "bullish", "High", "8 minutes ago"),
    NewsItem(4, "\U{26A1} Renewable energy stocks hit all-time high", "bullish", "High", "12 minutes ago"),
    NewsItem(5, "\U{1F3ED} Manufacturing index shows strongest growth in 5 years", "bullish", "Medium", "15 minutes ago"),
    NewsItem(6, "\U{1F4BC} Indian startups raise record \U{20B9}10B in funding this quarter", "bullish", "High", "18 minutes ago")
  ]

  /** The step forwards, wrapping from the last headline to the first. */
  function Next(i: int, n: int): (j: int)
    requires n > 0
    ensures 0 <= j < n
    ensures 0 <= i < n - 1 ==> j == i + 1
    ensures i == n - 1 ==> j == 0
  {
    (i + 1) % n
  }

  /** The step backwards, wrapping from the first headline to the last. */
  function Prev(i: int, n: int): (j: int)
    requires n > 0
    ensures 0 < i < n ==> j == i - 1
    ensures i <= 0 ==> j == n - 1
  {
    if i > 0 then i - 1 else n - 1
  }

  /** Within range, a step forwards and a step backwards undo each other. */
  lemma NextPrevInverse(i: int, n: int)
    requires 0 <= i < n
    ensures Prev(Next(i, n), n) == i
    ensures Next(Prev(i, n), n) == i
    ensures 0 <= Prev(i, n) < n
  {
  }

  /** The index after k steps forwards. */
  function Steps(i: int, n: int, k: nat): int
    requires n > 0
    decreases k
  {
    if k == 0 then i else Next(Steps(i, n, k - 1), n)
  }

  /** k steps forwards from i land on (i + k) mod n. */
  lemma {:induction false} StepsModular(i: int, n: int, k: nat)
    requires 0 <= i < n
    ensures Steps(i, n, k) == (i + k) % n
    decreases k
  {
    if k > 0 {
      StepsModular(i, n, k - 1);
      ModSucc(i + k - 1, n);
    }
  }

  /** The timer's n steps over n headlines come back to the start. */
  lemma FullRound(i: int, n: int)
    requires 0 <= i < n
    ensures Steps(i, n, n) == i
  {
    StepsModular(i, n, n);
    DivModUnique(i + n, n, 1, i);
  }

  /** `getImpactColor`. */
  function ImpactColor(impact: string): (c: string)
    ensures impact == "High" ==> c == "text-red-500"
    ensures impact == "Medium" ==> c == "text-yellow-500"
    ensures impact == "Low" ==> c == "text-green-500"
    ensures impact !in {"High", "Medium", "Low"} ==> c == "text-gray-500"
  {
    if impact == "High" then "text-red-500"
    else if impact == "Medium" then "text-yellow-500"
    else if impact == "Low" then "text-green-500"
    else "text-gray-500"
  }

  /** Which progress dots are drawn highlighted. */
  function Dots(n: nat, current: int): (d: seq<bool>)
    ensures |d| == n && forall i :: 0 <= i < n ==> (d[i] <==> i == current)
  {
    seq(n, i => i == current)
  }

  function CountTrue(d: seq<bool>): nat {
    if d == [] then 0 else CountTrue(d[..|d| - 1]) + (if d[|d| - 1] then 1 else 0)
  }

  /** With the index in range, exactly one dot is highlighted; out of range, none is. */
  lemma {:induction false} OneDotLit(n: nat, current: int)
    ensures CountTrue(Dots(n, current)) == if 0 <= current < n then 1 else 0
    decreases n
  {
    if n > 0 {
      assert Dots(n, current)[..n - 1] == Dots(n - 1, current);
      OneDotLit(n - 1, current);
    }
  }

  class Carousel {
    var currentNewsIndex: int
    var isAnimating: bool

    ghost predicate Valid()
      reads this
    {
      0 <= currentNewsIndex < |BreakingNews|
    }

    constructor ()
      ensures Valid() && currentNewsIndex == 0 && !isAnimating
    {
      currentNewsIndex := 0;
      isAnimating := false;
    }

    /** A step is requested (by the timer or a button): the animation starts. */
    method StartStep()
      modifies this
      ensures isAnimating && currentNewsIndex == old(currentNewsIndex)
    {
      isAnimating := true;
    }

    /** 300 ms later a forward step lands. */
    method FinishNext()
      requires Valid()
      modifies this
      ensures Valid() && !isAnimating
      ensures currentNewsIndex == Next(old(currentNewsIndex), |BreakingNews|)
    {
      currentNewsIndex := (currentNewsIndex + 1) % |BreakingNews|;
      isAnimating := false;
    }

    /** 300 ms later a backward step lands. */
    method FinishPrev()
      requires Valid()
      modifies this
      ensures Valid() && !isAnimating
      ensures currentNewsIndex == Prev(old(currentNewsIndex), |BreakingNews|)
    {
      currentNewsIndex := if currentNewsIndex > 0 then currentNewsIndex - 1 else |BreakingNews| - 1;
      isAnimating := false;
    }

    function CurrentNews(): NewsItem
      requires Valid()
      reads this
    {
      BreakingNews[currentNewsIndex]
    }
  }
}
