/**
 * The slider component: a cyclic slide index with previous/next/go-to
 * navigation, arrow-key navigation and an autoplay interval that advances the
 * slide every `speed` milliseconds.
 *
 * The browser's interval table is represented by the handles of this slider's
 * intervals that are still registered (`live`) and by the next handle
 * `setInterval` hands out; the interval firing is the explicit step `Tick`.
 */
module Slider {
  import opened Wrappers

  /** The `config` argument; an absent field is `None`. */
  datatype Config = Config(total: Option<int>, autoplay: Option<bool>, speed: Option<int>)

  const DefaultSpeed := 5000

  /** `x || fallback` for a number: an absent field and 0 are falsy. */
  function NumberOr(x: Option<int>, fallback: int): (r: int)
    ensures r == fallback || x == Some(r)
    ensures x.Some? && x.value != 0 ==> r == x.value
    ensures r == 0 ==> fallback == 0
  {
    if x.Some? && x.value != 0 then x.value else fallback
  }

  /** The slide after `current`, wrapping from the last slide to the first. */
  function NextIndex(current: int, total: int): (r: int)
    requires 0 <= current < total
    ensures 0 <= r < total
    ensures r == if current == total - 1 then 0 else current + 1
  {
    (current + 1) % total
  }

  /** The slide before `current`, wrapping from the first slide to the last. */
  function PrevIndex(current: int, total: int): (r: int)
    requires 0 <= current < total
    ensures 0 <= r < total
    ensures r == if current == 0 then total - 1 else current - 1
  {
    (current - 1 + total) % total
  }

  /** `prev` undoes `next` and `next` undoes `prev`. */
  lemma PrevNextInverse(current: int, total: int)
    requires 0 <= current < total
    ensures PrevIndex(NextIndex(current, total), total) == current
    ensures NextIndex(PrevIndex(current, total), total) == current
  {
  }

  /** The slide reached from `current` after `k` calls of `next`. */
  function NextIter(current: int, total: int, k: nat): (r: int)
    requires 0 <= current < total
    ensures 0 <= r < total
  {
    if k == 0 then current else NextIndex(NextIter(current, total, k - 1), total)
  }

  /** Within the range, `k` calls of `next` add `k`. */
  lemma {:induction false} NextIterWithin(current: int, total: int, k: nat)
    requires 0 <= current && current + k < total
    ensures NextIter(current, total, k) == current + k
  {
    if k > 0 {
      NextIterWithin(current, total, k - 1);
    }
  }

  /** `a + b` calls of `next` are `a` calls followed by `b` calls. */
  lemma {:induction false} NextIterAdd(current: int, total: int, a: nat, b: nat)
    requires 0 <= current < total
    ensures NextIter(current, total, a + b) == NextIter(NextIter(current, total, a), total, b)
  {
    if b > 0 {
      NextIterAdd(current, total, a, b - 1);
    }
  }

  /** `total` calls of `next` come back to the slide they started from. */
  lemma NextCycle(current: int, total: int)
    requires 0 <= current < total
    ensures NextIter(current, total, total) == current
  {
    NextIterWithin(current, total, total - 1 - current);
    assert NextIter(current, total, total - current) == 0;
    NextIterAdd(current, total, total - current, current);
    if current > 0 {
      NextIterWithin(0, total, current);
    }
  }

  class Slider {
    var current: int
    const total: int
    const autoplay: bool
    const speed: int
    var interval: Option<nat>
    /** Handles of this slider's intervals still registered with the browser. */
    var live: set<nat>
    /** The handle the browser's next `setInterval` returns; browser handles are positive. */
    var nextHandle: nat

    /** The index is a slide, and the only registered interval is the one `interval` holds. */
    ghost predicate Valid()
      reads this
    {
      0 <= current && (total > 0 ==> current < total) && (total <= 0 ==> current == 0) &&
      0 < nextHandle &&
      match interval
      case None => live == {}
      case Some(h) => live == {h} && 0 < h < nextHandle
    }

    /** `slider(config)`: a falsy `total`, `autoplay` or `speed` takes its default 0, false or 5000. */
    constructor (config: Config)
      ensures Valid()
      ensures total == NumberOr(config.total, 0) && speed == NumberOr(config.speed, DefaultSpeed)
      ensures autoplay == (config.autoplay == Some(true))
      ensures current == 0 && interval == None && live == {}
    {
      current := 0;
      total := NumberOr(config.total, 0);
      autoplay := config.autoplay == Some(true);
      speed := NumberOr(config.speed, DefaultSpeed);
      interval := None;
      live := {};
      nextHandle := 1;
    }

    /** The browser's `setInterval`: registers and returns a fresh handle. */
    method SetInterval() returns (h: nat)
      modifies this`live, this`nextHandle
      ensures h == old(nextHandle) && live == old(live) + {h} && nextHandle == old(nextHandle) + 1
    {
      h := nextHandle;
      live := live + {h};
      nextHandle := nextHandle + 1;
    }

    /** The browser's `clearInterval`. */
    method ClearInterval(h: nat)
      modifies this`live
      ensures live == old(live) - {h}
    {
      live := live - {h};
    }

    /** `startAutoplay`: clears any registered interval, then registers a fresh one. */
    method StartAutoplay()
      requires Valid()
      modifies this
      ensures Valid()
      ensures interval == Some(old(nextHandle)) && live == {old(nextHandle)} && nextHandle == old(nextHandle) + 1
      ensures current == old(current)
    {
      if interval.Some? {
        ClearInterval(interval.value);
      }
      var h := SetInterval();
      interval := Some(h);
    }

    /** `stopAutoplay`: afterwards no interval is registered, however many times it runs. */
    method StopAutoplay()
      requires Valid()
      modifies this
      ensures Valid()
      ensures interval == None && live == {} && nextHandle == old(nextHandle) && current == old(current)
    {
      if interval.Some? {
        ClearInterval(interval.value);
        interval := None;
      }
    }

    /** `resetAutoplay`: restarts the interval when autoplay is on, and otherwise does nothing. */
    method ResetAutoplay()
      requires Valid()
      modifies this
      ensures Valid() && current == old(current)
      ensures autoplay ==> interval == Some(old(nextHandle)) && live == {old(nextHandle)} &&
                           nextHandle == old(nextHandle) + 1
      ensures !autoplay ==> interval == old(interval) && live == old(live) && nextHandle == old(nextHandle)
    {
      if autoplay {
        StopAutoplay();
        StartAutoplay();
      }
    }

    /** `next`: the following slide, then the autoplay reset. */
    method Next()
      requires Valid() && total > 0
      modifies this
      ensures Valid() && current == NextIndex(old(current), total)
      ensures autoplay ==> interval == Some(old(nextHandle)) && live == {old(nextHandle)} &&
                           nextHandle == old(nextHandle) + 1
      ensures !autoplay ==> interval == old(interval) && live == old(live) && nextHandle == old(nextHandle)
    {
      current := (current + 1) % total;
      ResetAutoplay();
    }

    /** `prev`: the preceding slide, then the autoplay reset. */
    method Prev()
      requires Valid() && total > 0
      modifies this
      ensures Valid() && current == PrevIndex(old(current), total)
      ensures autoplay ==> interval == Some(old(nextHandle)) && live == {old(nextHandle)} &&
                           nextHandle == old(nextHandle) + 1
      ensures !autoplay ==> interval == old(interval) && live == old(live) && nextHandle == old(nextHandle)
    {
      current := (current - 1 + total) % total;
      ResetAutoplay();
    }

    /** `goto(index)`: only an index of a slide moves the slider and resets autoplay. */
    method Goto(index: int)
      requires Valid()
      modifies this
      ensures Valid()
      ensures 0 <= index < total ==>
                current == index &&
                (autoplay ==> interval == Some(old(nextHandle)) && live == {old(nextHandle)} &&
                              nextHandle == old(nextHandle) + 1) &&
                (!autoplay ==> interval == old(interval) && live == old(live) && nextHandle == old(nextHandle))
      ensures !(0 <= index < total) ==>
                current == old(current) && interval == old(interval) && live == old(live) &&
                nextHandle == old(nextHandle)
    {
      if index >= 0 && index < total {
        current := index;
        ResetAutoplay();
      }
    }

    /** The registered interval fires: the callback calls `next`. */
    method Tick()
      requires Valid() && interval.Some? && total > 0
      modifies this
      ensures Valid() && current == NextIndex(old(current), total)
      ensures autoplay ==> interval == Some(old(nextHandle)) && live == {old(nextHandle)} &&
                           nextHandle == old(nextHandle) + 1
      ensures !autoplay ==> interval == old(interval) && live == old(live) && nextHandle == old(nextHandle)
    {
      Next();
    }

    /** `init`: autoplay starts only when it is on and there is more than one slide. */
    method Init()
      requires Valid()
      modifies this
      ensures Valid() && current == old(current)
      ensures autoplay && total > 1 ==> interval == Some(old(nextHandle)) && live == {old(nextHandle)} &&
                                        nextHandle == old(nextHandle) + 1
      ensures !(autoplay && total > 1) ==> interval == old(interval) && live == old(live) &&
                                           nextHandle == old(nextHandle)
    {
      if autoplay && total > 1 {
        StartAutoplay();
      }
    }

    /** The `keydown` listener: ArrowLeft is `prev`, ArrowRight is `next`, any other key does nothing. */
    method KeyDown(key: string)
      requires Valid()
      requires key == "ArrowLeft" || key == "ArrowRight" ==> total > 0
      modifies this
      ensures Valid()
      ensures key == "ArrowLeft" ==> current == PrevIndex(old(current), total)
      ensures key == "ArrowRight" ==> current == NextIndex(old(current), total)
      ensures (key == "ArrowLeft" || key == "ArrowRight") && autoplay ==>
                interval == Some(old(nextHandle)) && live == {old(nextHandle)} && nextHandle == old(nextHandle) + 1
      ensures (key == "ArrowLeft" || key == "ArrowRight") && !autoplay ==>
                interval == old(interval) && live == old(live) && nextHandle == old(nextHandle)
      ensures key != "ArrowLeft" && key != "ArrowRight" ==>
                current == old(current) && interval == old(interval) && live == old(live) &&
                nextHandle == old(nextHandle)
    {
      if key == "ArrowLeft" {
        Prev();
      }
      if key == "ArrowRight" {
        Next();
      }
    }

    /** `destroy`: stops autoplay. */
    method Destroy()
      requires Valid()
      modifies this
      ensures Valid()
      ensures interval == None && live == {} && nextHandle == old(nextHandle) && current == old(current)
    {
      StopAutoplay();
    }
  }
}
