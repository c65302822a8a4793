/**
 * The scroll-snap carousel: how far one press of next/prev scrolls the
 * container, and the `atStart`/`atEnd` flags that say whether the container is
 * scrolled to either edge. Pixel values are integers; the container's geometry
 * is an input.
 */
module Carousel {
  import opened Wrappers

  /** The 1rem gap between cards, in pixels. */
  const Gap := 16

  /** The scroll container as read from the DOM; `firstChildWidth` is absent when it has no element child. */
  datatype Container = Container(clientWidth: nat, scrollLeft: int, scrollWidth: nat, firstChildWidth: Option<nat>)

  datatype Direction = Next | Prev

  /** How many whole cards, each followed by a gap, fit in the visible width. */
  function ItemsPerView(containerWidth: nat, cardWidth: nat): (r: nat)
    ensures r * (cardWidth + Gap) <= containerWidth < (r + 1) * (cardWidth + Gap)
  {
    containerWidth / (cardWidth + Gap)
  }

  /** The cards one press scrolls by: the configured step, or as many as are visible. */
  function ItemsToScroll(step: Option<int>, containerWidth: nat, cardWidth: nat): int
  {
    match step
    case Some(n) => n
    case None => ItemsPerView(containerWidth, cardWidth)
  }

  /** The scroll distance for `items` cards. */
  function ScrollAmount(cardWidth: nat, items: int): int
  {
    (cardWidth + Gap) * items
  }

  /** Where one press scrolls to from `scrollLeft`. */
  function Target(direction: Direction, scrollLeft: int, amount: int): int
  {
    if direction == Next then scrollLeft + amount else scrollLeft - amount
  }

  /** What `scroll(direction)` asks `scrollTo` for, if anything. */
  function ScrollTarget(step: Option<int>, direction: Direction, container: Option<Container>): (r: Option<int>)
    ensures r.Some? <==> container.Some? && container.value.firstChildWidth.Some?
    ensures r.Some? && (step.None? || step.value >= 0) ==>
              (direction == Next ==> r.value >= container.value.scrollLeft) &&
              (direction == Prev ==> r.value <= container.value.scrollLeft)
  {
    match container
    case None => None
    case Some(c) =>
      match c.firstChildWidth
      case None => None
      case Some(cardWidth) =>
        Some(Target(direction, c.scrollLeft, ScrollAmount(cardWidth, ItemsToScroll(step, c.clientWidth, cardWidth))))
  }

  /** No scroll is issued exactly when there is no container or it has no element child. */
  lemma ScrollTargetNone(step: Option<int>, direction: Direction, container: Option<Container>)
    ensures ScrollTarget(step, direction, container).None? <==>
            container.None? || container.value.firstChildWidth.None?
  {
  }

  /**
   * Without a configured step one press scrolls by whole visible cards: no
   * more than the visible width, and less than one card and gap short of it.
   */
  lemma DefaultStepFits(c: Container, direction: Direction)
    requires c.firstChildWidth.Some?
    ensures var amount := ScrollTarget(None, direction, Some(c)).value - c.scrollLeft;
            var distance := if direction == Next then amount else -amount;
            0 <= distance <= c.clientWidth < distance + c.firstChildWidth.value + Gap &&
            distance % (c.firstChildWidth.value + Gap) == 0
  {
    var cardWidth := c.firstChildWidth.value;
    var items := ItemsPerView(c.clientWidth, cardWidth);
    assert (items + 1) * (cardWidth + Gap) == items * (cardWidth + Gap) + (cardWidth + Gap);
    MultipleMod(items, cardWidth + Gap);
  }

  /** A whole number of steps leaves no remainder. */
  lemma MultipleMod(k: nat, m: nat)
    requires m > 0
    ensures (k * m) % m == 0
  {
    var d := k * m;
    var q, r := d / m, d % m;
    assert d == q * m + r && 0 <= r < m;
    var e := k - q;
    assert e * m == r by {
      assert e * m == k * m - q * m;
    }
    assert !(e >= 1) by {
      assert e >= 1 ==> e * m == (e - 1) * m + m && (e - 1) * m >= 0;
    }
    assert !(e <= -1) by {
      assert e <= -1 ==> (-e) * m > 0;
    }
  }

  /** With a configured step, one press scrolls by exactly `step` cards and gaps. */
  lemma ConfiguredStep(c: Container, n: int)
    requires c.firstChildWidth.Some?
    ensures ScrollTarget(Some(n), Next, Some(c)).value == c.scrollLeft + n * (c.firstChildWidth.value + Gap)
  {
  }

  /** The next and prev targets lie the same distance on either side of the current position. */
  lemma ScrollSymmetric(step: Option<int>, c: Container)
    requires c.firstChildWidth.Some?
    ensures ScrollTarget(step, Next, Some(c)).value - c.scrollLeft ==
            c.scrollLeft - ScrollTarget(step, Prev, Some(c)).value
  {
  }

  /** The flags' conditions, each with a 1px threshold. */
  predicate AtStart(c: Container)
  {
    c.scrollLeft <= 1
  }

  predicate AtEnd(c: Container)
  {
    c.scrollLeft >= c.scrollWidth - c.clientWidth - 1
  }

  /** The `scrollTo` calls a scroll adds: one for the target, or none. */
  function Issued(target: Option<int>): seq<int>
  {
    match target
    case None => []
    case Some(t) => [t]
  }

  class Carousel {
    const step: Option<int>
    var atStart: bool
    var atEnd: bool
    /** The `left` positions the container's `scrollTo` has been asked for, in order. */
    var scrolls: seq<int>

    /** `Carousel(step)`: the flags start as "at the start, not at the end". */
    constructor (step: Option<int>)
      ensures this.step == step && atStart && !atEnd && scrolls == []
    {
      this.step := step;
      atStart := true;
      atEnd := false;
      scrolls := [];
    }

    /** `scroll(direction)`: asks `scrollTo` for the scroll target, unless the container or its first card is missing. */
    method Scroll(direction: Direction, container: Option<Container>)
      modifies this`scrolls
      ensures scrolls == old(scrolls) + Issued(ScrollTarget(step, direction, container))
    {
      if container.None? {
        return;
      }
      var c := container.value;
      var containerWidth := c.clientWidth;
      if c.firstChildWidth.None? {
        return;
      }
      var cardWidth := c.firstChildWidth.value;
      var itemsToScroll := ItemsToScroll(step, containerWidth, cardWidth);
      var scrollAmount := ScrollAmount(cardWidth, itemsToScroll);
      var targetScroll := Target(direction, c.scrollLeft, scrollAmount);
      scrolls := scrolls + [targetScroll];
    }

    /** `next`. */
    method Next(container: Option<Container>)
      modifies this`scrolls
      ensures scrolls == old(scrolls) + Issued(ScrollTarget(step, Direction.Next, container))
    {
      Scroll(Direction.Next, container);
    }

    /** `prev`. */
    method Prev(container: Option<Container>)
      modifies this`scrolls
      ensures scrolls == old(scrolls) + Issued(ScrollTarget(step, Direction.Prev, container))
    {
      Scroll(Direction.Prev, container);
    }

    /** `update`: recomputes both flags from the container, or leaves them when there is none. */
    method Update(container: Option<Container>)
      modifies this`atStart, this`atEnd
      ensures container.None? ==> atStart == old(atStart) && atEnd == old(atEnd)
      ensures container.Some? ==> (atStart <==> AtStart(container.value)) && (atEnd <==> AtEnd(container.value))
    {
      if container.None? {
        return;
      }
      var c := container.value;
      atStart := c.scrollLeft <= 1;
      var maxScroll := c.scrollWidth - c.clientWidth;
      atEnd := c.scrollLeft >= maxScroll - 1;
    }

    /** `init`: the flags are computed once from the container. */
    method Init(container: Option<Container>)
      modifies this`atStart, this`atEnd
      ensures container.None? ==> atStart == old(atStart) && atEnd == old(atEnd)
      ensures container.Some? ==> (atStart <==> AtStart(container.value)) && (atEnd <==> AtEnd(container.value))
    {
      Update(container);
    }
  }
}
