/**
 * components/StudyMode.tsx: the flag carousel. The position is an index into
 * the country list that wraps around in both directions, and a full-screen
 * overlay shows the current flag. The component indexes `countries` while
 * rendering, so it only works for a non-empty list; `count > 0` is required.
 * Both operands of `%` are non-negative here, so JavaScript's truncating
 * remainder and Dafny's Euclidean one agree.
 */
module Study {

  /** `handleNext`: `(prev + 1) % countries.length`. */
  function Next(i: nat, count: nat): (r: nat)
    requires count > 0
    ensures r < count
    ensures i < count - 1 ==> r == i + 1
    ensures i == count - 1 ==> r == 0
  {
    (i + 1) % count
  }

  /** `handlePrev`: `(prev - 1 + countries.length) % countries.length`. */
  function Prev(i: nat, count: nat): (r: nat)
    requires count > 0
    ensures r < count
    ensures 0 < i < count ==> r == i - 1
    ensures i == 0 ==> r == count - 1
  {
    (i - 1 + count) % count
  }

  lemma PrevUndoesNext(i: nat, count: nat)
    requires i < count
    ensures Prev(Next(i, count), count) == i
  {
  }

  lemma NextUndoesPrev(i: nat, count: nat)
    requires i < count
    ensures Next(Prev(i, count), count) == i
  {
  }

  /** `handleNext` applied `k` times. */
  function NextTimes(i: nat, k: nat, count: nat): (r: nat)
    requires count > 0
  {
    if k == 0 then i else Next(NextTimes(i, k - 1, count), count)
  }

  lemma {:induction false} NextTimesSplit(i: nat, a: nat, b: nat, count: nat)
    requires count > 0
    ensures NextTimes(i, a + b, count) == NextTimes(NextTimes(i, a, count), b, count)
  {
    if b > 0 {
      NextTimesSplit(i, a, b - 1, count);
    }
  }

  /** Before the end of the list, `k` presses move `k` places forward. */
  lemma {:induction false} NextTimesForward(i: nat, k: nat, count: nat)
    requires i + k < count
    ensures NextTimes(i, k, count) == i + k
  {
    if k > 0 {
      NextTimesForward(i, k - 1, count);
    }
  }

  /** Pressing next `count` times comes back to where it started. */
  lemma FullCycle(i: nat, count: nat)
    requires i < count
    ensures NextTimes(i, count, count) == i
  {
    var toLast := count - 1 - i;
    NextTimesForward(i, toLast, count);
    NextTimesSplit(i, toLast, i + 1, count);
    NextTimesSplit(count - 1, 1, i, count);
    NextTimesForward(0, i, count);
  }

  datatype Move = NextFlag | PrevFlag

  function Move1(i: nat, m: Move, count: nat): (r: nat)
    requires count > 0
  {
    match m
    case NextFlag => Next(i, count)
    case PrevFlag => Prev(i, count)
  }

  /** Any sequence of arrow presses keeps the index inside the list. */
  function Navigate(i: nat, moves: seq<Move>, count: nat): (r: nat)
    requires i < count
    ensures r < count
    decreases |moves|
  {
    if moves == [] then i else Navigate(Move1(i, moves[0], count), moves[1..], count)
  }

  class StudyMode {
    const count: nat
    var currentIndex: nat
    var isFullScreen: bool

    ghost predicate Valid()
      reads this
    {
      0 < count && currentIndex < count
    }

    constructor (count: nat)
      requires count > 0
      ensures this.count == count && currentIndex == 0 && !isFullScreen
      ensures Valid()
    {
      this.count := count;
      currentIndex := 0;
      isFullScreen := false;
    }

    /** The "`currentIndex + 1` of `countries.length`" counter. */
    function Counter(): (r: nat)
      reads this
      requires Valid()
      ensures 1 <= r <= count
    {
      currentIndex + 1
    }

    method HandleNext()
      requires Valid()
      modifies this`currentIndex
      ensures Valid()
      ensures currentIndex == Next(old(currentIndex), count)
      ensures isFullScreen == old(isFullScreen)
    {
      currentIndex := (currentIndex + 1) % count;
    }

    method HandlePrev()
      requires Valid()
      modifies this`currentIndex
      ensures Valid()
      ensures currentIndex == Prev(old(currentIndex), count)
      ensures isFullScreen == old(isFullScreen)
    {
      currentIndex := (currentIndex - 1 + count) % count;
    }

    /** The flag itself and the maximise button both open the overlay. */
    method OpenFullScreen()
      requires Valid()
      modifies this`isFullScreen
      ensures Valid()
      ensures isFullScreen
      ensures currentIndex == old(currentIndex)
    {
      isFullScreen := true;
    }

    /** The overlay's close button. */
    method CloseFullScreen()
      requires Valid()
      modifies this`isFullScreen
      ensures Valid()
      ensures !isFullScreen
      ensures currentIndex == old(currentIndex)
    {
      isFullScreen := false;
    }
  }
}
