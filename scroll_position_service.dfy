/** The scroll position store (src/app/core/services/scroll-position-service.ts). */
module ScrollPositions {
  import opened Wrappers

  datatype ScrollPosition = ScrollPosition(x: int, y: int)

  /** JavaScript's `a || b` on numbers: `b` when `a` is 0. */
  function OrIfZero(a: int, b: int): (r: int)
    ensures a != 0 ==> r == a
    ensures a == 0 ==> r == b
  {
    if a != 0 then a else b
  }

  /** The position `saveScrollPosition` records from the window's offsets. */
  function PositionFrom(scrollX: int, pageXOffset: int, scrollY: int, pageYOffset: int): (p: ScrollPosition)
    ensures p.x == OrIfZero(scrollX, pageXOffset) && p.y == OrIfZero(scrollY, pageYOffset)
  {
    ScrollPosition(OrIfZero(scrollX, pageXOffset), OrIfZero(scrollY, pageYOffset))
  }

  /** `Map.get`: `undefined` becomes `None`. */
  function Lookup(positions: map<string, ScrollPosition>, key: string): (p: Option<ScrollPosition>)
    ensures p.Some? <==> key in positions
    ensures p.Some? ==> p.value == positions[key]
  {
    if key in positions then Some(positions[key]) else None
  }

  /** A saved position is read back, and no other key's entry changes. */
  lemma SaveThenLookup(positions: map<string, ScrollPosition>, key: string, other: string, p: ScrollPosition)
    ensures Lookup(positions[key := p], key) == Some(p)
    ensures other != key ==> Lookup(positions[key := p], other) == Lookup(positions, other)
  {
  }

  class ScrollPositionService {
    var scrollPositions: map<string, ScrollPosition>

    constructor ()
      ensures scrollPositions == map[]
    {
      scrollPositions := map[];
    }

    /** `saveScrollPosition`, with the window's offsets as inputs. */
    method SaveScrollPosition(key: string, scrollX: int, pageXOffset: int, scrollY: int, pageYOffset: int)
      modifies this
      ensures scrollPositions == old(scrollPositions)[key := PositionFrom(scrollX, pageXOffset, scrollY, pageYOffset)]
      ensures GetScrollPosition(key) == Some(PositionFrom(scrollX, pageXOffset, scrollY, pageYOffset))
      ensures forall k :: k != key ==> GetScrollPosition(k) == old(GetScrollPosition(k))
    {
      var scrollPosition := ScrollPosition(
        if scrollX != 0 then scrollX else pageXOffset,
        if scrollY != 0 then scrollY else pageYOffset);
      scrollPositions := scrollPositions[key := scrollPosition];
    }

    function GetScrollPosition(key: string): (p: Option<ScrollPosition>)
      reads this
    {
      Lookup(scrollPositions, key)
    }

    /**
     * `restoreScrollPosition`: `false` when nothing is saved for the key;
     * otherwise `true`, and the position handed to the deferred `scrollTo`.
     */
    method RestoreScrollPosition(key: string) returns (restored: bool, scrollTarget: Option<ScrollPosition>)
      ensures restored <==> key in scrollPositions
      ensures scrollTarget == GetScrollPosition(key)
    {
      var position := GetScrollPosition(key);
      if position.None? {
        return false, None;
      }
      restored, scrollTarget := true, position;
    }
  }
}
