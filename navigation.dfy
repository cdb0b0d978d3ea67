/** The front-end navigation bar's scroll rule: shown near the top of the
    page, hidden on a downward scroll past 100 px, shown again after an upward
    scroll of more than 50 px. */
module Navigation {

  const TopZone: real := 50.0
  const HideAfter: real := 100.0
  const ShowOnUpScroll: real := 50.0

  /** The visibility after a scroll event at `currentScrollY`, given the
      visibility and the position recorded at the previous event. */
  function NextVisible(isVisible: bool, lastScrollY: real, currentScrollY: real): bool
  {
    if currentScrollY < TopZone then true
    else if currentScrollY > lastScrollY && currentScrollY > HideAfter then false
    else if lastScrollY - currentScrollY > ShowOnUpScroll then true
    else isVisible
  }

  /** What each event does to the bar: near the top it is always shown; a
      downward scroll past 100 always hides it; a bar is hidden only by a
      downward scroll past 100 and shown only near the top or after an upward
      scroll of more than 50; otherwise it stays. */
  lemma NextVisibleCharacterised(isVisible: bool, lastScrollY: real, currentScrollY: real)
    ensures var next := NextVisible(isVisible, lastScrollY, currentScrollY);
      (currentScrollY < 50.0 ==> next) &&
      (currentScrollY > lastScrollY && currentScrollY > 100.0 ==> !next) &&
      (isVisible && !next ==> currentScrollY > lastScrollY && currentScrollY > 100.0) &&
      (!isVisible && next ==> currentScrollY < 50.0 || lastScrollY - currentScrollY > 50.0) &&
      (var neitherEarlier := currentScrollY >= 50.0 && !(currentScrollY > lastScrollY && currentScrollY > 100.0);
       (neitherEarlier && lastScrollY - currentScrollY > 50.0 ==> next) &&
       (neitherEarlier && lastScrollY - currentScrollY <= 50.0 ==> next == isVisible))
  {
  }

  /** A second event at the same position changes nothing. */
  lemma NextVisibleStable(isVisible: bool, lastScrollY: real, currentScrollY: real)
    ensures var next := NextVisible(isVisible, lastScrollY, currentScrollY);
      NextVisible(next, currentScrollY, currentScrollY) == next
  {
  }

  /** A hidden bar may stay hidden below 100 px: hidden at 120, a small
      upward scroll to 80 triggers no branch. */
  lemma HiddenBelowHideLine()
    ensures !NextVisible(false, 120.0, 80.0)
  {
  }

  /** The navigation component's state: `isVisible` and `lastScrollY`. */
  class NavigationBar {
    var isVisible: bool
    var lastScrollY: real

    /** A hidden bar was last seen outside the top zone. */
    ghost predicate Valid()
      reads this
    {
      !isVisible ==> lastScrollY >= TopZone
    }

    constructor ()
      ensures Valid() && isVisible && lastScrollY == 0.0
    {
      isVisible := true;
      lastScrollY := 0.0;
    }

    /** `handleScroll` for an event at `currentScrollY`. */
    method HandleScroll(currentScrollY: real)
      requires Valid()
      modifies this
      ensures Valid()
      ensures isVisible == NextVisible(old(isVisible), old(lastScrollY), currentScrollY)
      ensures lastScrollY == currentScrollY
    {
      if currentScrollY < TopZone {
        isVisible := true;
      } else if currentScrollY > lastScrollY && currentScrollY > HideAfter {
        isVisible := false;
      } else if lastScrollY - currentScrollY > ShowOnUpScroll {
        isVisible := true;
      }
      lastScrollY := currentScrollY;
    }
  }
}
