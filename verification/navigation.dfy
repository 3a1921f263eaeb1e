/**
  The figure navigation state of the supplementary-figures page: one integer,
  `currentFigure`, that starts at 1 and is changed only by the Previous and Next
  buttons and by the row of numbered page buttons.
 */
module Navigation {

  /** `totalFigures`: the number of figures in the gallery. */
  const TotalFigures: int := 15

  /** A figure number the gallery can show. */
  predicate IsFigure(n: int) {
    1 <= n <= TotalFigures
  }

  /** The Previous handler, `Math.max(1, n - 1)`. */
  function PreviousFigure(n: int): (m: int)
    ensures 1 <= m
    ensures IsFigure(n) ==> IsFigure(m)
    ensures n <= 1 ==> m == 1
    ensures 1 < n ==> m == n - 1
  {
    if 1 >= n - 1 then 1 else n - 1
  }

  /** The Next handler, `Math.min(totalFigures, n + 1)`. */
  function NextFigure(n: int): (m: int)
    ensures m <= TotalFigures
    ensures IsFigure(n) ==> IsFigure(m)
    ensures n >= TotalFigures ==> m == TotalFigures
    ensures n < TotalFigures ==> m == n + 1
  {
    if TotalFigures <= n + 1 then TotalFigures else n + 1
  }

  /** The labels of the page buttons, `Array.from({length: totalFigures}, (_, i) => i + 1)`. */
  function PageNumbers(): (pages: seq<int>)
    ensures |pages| == TotalFigures
    ensures forall k :: 0 <= k < |pages| ==> pages[k] == k + 1
  {
    seq(TotalFigures, i => i + 1)
  }

  /** The page buttons offer exactly the figure numbers, each once and in order. */
  lemma PageButtonsAreTheFigures()
    ensures forall n :: n in PageNumbers() <==> IsFigure(n)
    ensures forall k, l :: 0 <= k < l < |PageNumbers()| ==> PageNumbers()[k] < PageNumbers()[l]
  {
    var pages := PageNumbers();
    forall n | IsFigure(n)
      ensures n in pages
    {
      assert pages[n - 1] == n;
    }
  }

  /** In a valid state exactly one page button, the one at index `current - 1`, is highlighted. */
  lemma ExactlyOnePageHighlighted(current: int)
    requires IsFigure(current)
    ensures forall k :: 0 <= k < |PageNumbers()| ==> (PageNumbers()[k] == current <==> k == current - 1)
  {
  }

  /** The figure reached from `n` by pressing Next `k` times. */
  function NextTimes(n: int, k: nat): int
    decreases k
  {
    if k == 0 then n else NextTimes(NextFigure(n), k - 1)
  }

  /** The figure reached from `n` by pressing Previous `k` times. */
  function PreviousTimes(n: int, k: nat): int
    decreases k
  {
    if k == 0 then n else PreviousTimes(PreviousFigure(n), k - 1)
  }

  /** Pressing Next `k` times moves `k` figures forward, stopping at the last figure. */
  lemma {:induction false} NextTimesStopsAtLast(n: int, k: nat)
    requires IsFigure(n)
    ensures IsFigure(NextTimes(n, k))
    ensures NextTimes(n, k) == if n + k <= TotalFigures then n + k else TotalFigures
    decreases k
  {
    if k > 0 {
      NextTimesStopsAtLast(NextFigure(n), k - 1);
    }
  }

  /** Pressing Previous `k` times moves `k` figures back, stopping at figure 1. */
  lemma {:induction false} PreviousTimesStopsAtFirst(n: int, k: nat)
    requires IsFigure(n)
    ensures IsFigure(PreviousTimes(n, k))
    ensures PreviousTimes(n, k) == if n - k >= 1 then n - k else 1
    decreases k
  {
    if k > 0 {
      PreviousTimesStopsAtFirst(PreviousFigure(n), k - 1);
    }
  }

  /** Every figure can be reached from the initial figure 1 with the Next button alone. */
  lemma EveryFigureReachableFromStart(n: int)
    requires IsFigure(n)
    ensures NextTimes(1, n - 1) == n
  {
    NextTimesStopsAtLast(1, n - 1);
  }

  /** The component's navigation state: `const [currentFigure, setCurrentFigure] = useState(1)`. */
  class Navigator {
    var currentFigure: int

    /** The state invariant: the current figure is always one the gallery can show. */
    ghost predicate Valid()
      reads this
    {
      IsFigure(currentFigure)
    }

    /** The initial state, `useState(1)`. */
    constructor ()
      ensures Valid()
      ensures currentFigure == 1
    {
      currentFigure := 1;
    }

    /** `disabled={currentFigure === 1}` on the Previous button. */
    predicate PreviousDisabled()
      reads this
    {
      currentFigure == 1
    }

    /** `disabled={currentFigure === totalFigures}` on the Next button. */
    predicate NextDisabled()
      reads this
    {
      currentFigure == TotalFigures
    }

    /** The Previous button's click handler. */
    method Previous()
      requires Valid()
      modifies this
      ensures Valid()
      ensures currentFigure == PreviousFigure(old(currentFigure))
      ensures old(currentFigure) == 1 ==> currentFigure == 1
      ensures old(currentFigure) > 1 ==> currentFigure == old(currentFigure) - 1
    {
      currentFigure := PreviousFigure(currentFigure);
    }

    /** The Next button's click handler. */
    method Next()
      requires Valid()
      modifies this
      ensures Valid()
      ensures currentFigure == NextFigure(old(currentFigure))
      ensures old(currentFigure) == TotalFigures ==> currentFigure == TotalFigures
      ensures old(currentFigure) < TotalFigures ==> currentFigure == old(currentFigure) + 1
    {
      currentFigure := NextFigure(currentFigure);
    }

    /**
      The click handler of page button `num`, `setCurrentFigure(num)`. Only the numbers
      of `PageNumbers()` are ever offered, so `num` is a figure number by construction.
     */
    method SelectPage(num: int)
      requires Valid()
      requires num in PageNumbers()
      modifies this
      ensures Valid()
      ensures currentFigure == num
    {
      PageButtonsAreTheFigures();
      currentFigure := num;
    }
  }

  /**
    A button is disabled exactly when its handler would leave the figure unchanged:
    Previous at figure 1, Next at the last figure.
   */
  lemma DisabledExactlyWhenNoOp(nav: Navigator)
    requires nav.Valid()
    ensures nav.PreviousDisabled() <==> PreviousFigure(nav.currentFigure) == nav.currentFigure
    ensures nav.NextDisabled() <==> NextFigure(nav.currentFigure) == nav.currentFigure
  {
  }

  /** A session: five Nexts from the start, a jump to the last page, and the clamped boundaries. */
  method NavigationSession()
  {
    var nav := new Navigator();
    assert nav.PreviousDisabled();
    nav.Previous();
    assert nav.currentFigure == 1;
    nav.Next();
    nav.Next();
    nav.Next();
    nav.Next();
    nav.Next();
    assert nav.currentFigure == 6;
    PageButtonsAreTheFigures();
    nav.SelectPage(TotalFigures);
    assert nav.NextDisabled();
    nav.Next();
    assert nav.currentFigure == TotalFigures;
    nav.SelectPage(1);
    nav.Previous();
    assert nav.currentFigure == 1;
  }
}
