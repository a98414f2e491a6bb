/**
 * `components/Header.tsx`: the header hides while the page scrolls down or
 * sits at the very top, and shows again as soon as the page scrolls up.
 * The `scroll` listener keeps the previous position in `lastScroll`; the
 * window's `scrollY` is the event's parameter.
 */
module Header {

  /** The `top` state. */
  datatype Top = Hidden | Shown

  /** The state `onScroll` sets, from the previous and the current position. */
  function Visibility(lastScroll: real, currentScroll: real): Top {
    if currentScroll > lastScroll || currentScroll == 0.0 then Hidden else Shown
  }

  /** The header shows exactly on a move up, or no move, away from the top of the page. */
  lemma ShownIffUpAwayFromTop(lastScroll: real, currentScroll: real)
    ensures Visibility(lastScroll, currentScroll) == Shown <==> currentScroll <= lastScroll && currentScroll != 0.0
    ensures currentScroll == 0.0 ==> Visibility(lastScroll, currentScroll) == Hidden
  {
  }

  /** The state after a run of scroll events from the initial state. */
  function AfterScrolls(positions: seq<real>): (r: (Top, real))
    decreases |positions|
  {
    if positions == [] then (Hidden, 0.0)
    else
      var (_, last) := AfterScrolls(positions[..|positions| - 1]);
      var current := positions[|positions| - 1];
      (Visibility(last, current), current)
  }

  /** Only the last two positions matter: the last one is remembered, and the state compares it with the one before. */
  lemma {:induction false} LastTwoDecide(positions: seq<real>)
    requires |positions| > 0
    ensures var n := |positions|;
            AfterScrolls(positions)
            == (Visibility(if n > 1 then positions[n - 2] else 0.0, positions[n - 1]), positions[n - 1])
  {
    var n := |positions|;
    if n > 1 {
      var prefix := positions[..n - 1];
      assert prefix[..n - 2] == positions[..n - 2];
      assert AfterScrolls(prefix).1 == prefix[n - 2];
    }
  }

  /** Scrolling steadily down never shows the header. */
  lemma {:induction false} DownwardScrollStaysHidden(positions: seq<real>)
    requires forall i :: 0 <= i < |positions| ==> positions[i] >= 0.0
    requires forall i :: 0 < i < |positions| ==> positions[i - 1] < positions[i]
    ensures AfterScrolls(positions).0 == Hidden
  {
    if |positions| > 0 {
      LastTwoDecide(positions);
    }
  }

  /** The header's scroll listener and its state. */
  class HeaderScroll {
    var top: Top
    var lastScroll: real

    constructor()
      ensures top == Hidden && lastScroll == 0.0
    {
      top := Hidden;
      lastScroll := 0.0;
    }

    /** `onScroll` with the window's current `scrollY`. */
    method OnScroll(currentScroll: real)
      modifies this
      ensures top == Visibility(old(lastScroll), currentScroll)
      ensures lastScroll == currentScroll
    {
      if currentScroll > lastScroll || currentScroll == 0.0 {
        top := Hidden;
      } else {
        top := Shown;
      }
      lastScroll := currentScroll;
    }
  }
}
