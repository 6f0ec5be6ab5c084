/**
 * The steady-state gallery: five side-by-side strips, each cycling through its own
 * rotation of the media list. An image stays up for a random 4-8 s; a video stays up
 * until it ends.
 */
module Gallery {
  import opened Wrappers
  import opened Catalog
  import Cyclic

  const StripCount: nat := 5

  /** The list rotated left by `k` places (a reference definition independent of the loop below). */
  function Rotate<T>(s: seq<T>, k: nat): seq<T> {
    if |s| == 0 then [] else s[k % |s|..] + s[..k % |s|]
  }

  /** Element `i` of a rotation is element `(i + k) mod n` of the list. */
  lemma {:induction false} RotateAt<T>(s: seq<T>, k: nat, i: nat)
    requires i < |s|
    ensures |Rotate(s, k)| == |s|
    ensures Rotate(s, k)[i] == s[(i + k) % |s|]
  {
    var n, m := |s|, k % |s|;
    if i < n - m {
      Cyclic.DivModUnique(k, n, k / n, m);
      Cyclic.DivModUnique(i + k, n, k / n, i + m);
    } else {
      Cyclic.DivModUnique(i + k, n, k / n + 1, i + m - n);
    }
  }

  /** A rotation is a permutation of the list. */
  lemma RotatePermutes<T>(s: seq<T>, k: nat)
    ensures multiset(Rotate(s, k)) == multiset(s)
  {
    if |s| > 0 {
      var m := k % |s|;
      assert s == s[..m] + s[m..];
    }
  }

  /** Offset 0 leaves the list as it is, and offsets that differ by the length give the same list. */
  lemma {:induction false} RotateZeroAndPeriod<T>(s: seq<T>, k: nat)
    ensures Rotate(s, 0) == s
    ensures Rotate(s, k + |s|) == Rotate(s, k)
  {
    if |s| > 0 {
      Cyclic.DivModUnique(0, |s|, 0, 0);
      assert s[0..] + s[..0] == s;
      Cyclic.DivModUnique(k + |s|, |s|, k / |s| + 1, k % |s|);
    }
  }

  /** `getStripItems`: the strip's list, built one element at a time. */
  method GetStripItems(items: seq<MediaItem>, offset: nat) returns (stripItems: seq<MediaItem>)
    ensures stripItems == Rotate(items, offset)
  {
    stripItems := [];
    for i := 0 to |items|
      invariant |stripItems| == i
      invariant forall j | 0 <= j < i :: stripItems[j] == items[(j + offset) % |items|]
    {
      stripItems := stripItems + [items[(i + offset) % |items|]];
    }
    forall j | 0 <= j < |items|
      ensures stripItems[j] == Rotate(items, offset)[j]
    {
      RotateAt(items, offset, j);
    }
    if |items| == 0 {
      assert stripItems == [] == Rotate(items, offset);
    } else {
      RotateAt(items, offset, 0);
    }
  }

  /** The offset of strip `i`, so that neighbouring strips start at different items. */
  function StripOffset(i: nat): nat {
    i * 2
  }

  /** The lists of all five strips. */
  method AllStripItems(items: seq<MediaItem>) returns (strips: seq<seq<MediaItem>>)
    ensures |strips| == StripCount
    ensures forall i | 0 <= i < StripCount :: strips[i] == Rotate(items, StripOffset(i))
  {
    strips := [];
    for i := 0 to StripCount
      invariant |strips| == i
      invariant forall j | 0 <= j < i :: strips[j] == Rotate(items, StripOffset(j))
    {
      var s := GetStripItems(items, StripOffset(i));
      strips := strips + [s];
    }
  }

  /** With the nine-item catalogue the five strips start on five different items. */
  lemma StripStartsDistinct()
    ensures forall i, j | 0 <= i < j < StripCount ::
      Rotate(MediaItems, StripOffset(i))[0] != Rotate(MediaItems, StripOffset(j))[0]
  {
    forall i, j | 0 <= i < j < StripCount
      ensures Rotate(MediaItems, StripOffset(i))[0] != Rotate(MediaItems, StripOffset(j))[0]
    {
      assert |MediaItems| == 9;
      RotateAt(MediaItems, StripOffset(i), 0);
      RotateAt(MediaItems, StripOffset(j), 0);
      Cyclic.DivModUnique(2 * i, 9, 0, 2 * i);
      Cyclic.DivModUnique(2 * j, 9, 0, 2 * j);
      IdsUnique();
      assert MediaItems[2 * i].id != MediaItems[2 * j].id;
    }
  }

  /**
   * `Math.random() * 4000` added to 4000 and truncated to whole milliseconds by
   * `setTimeout`: with `r` in [0, 1) the delay lies in [4000, 8000).
   */
  function JitteredDelay(r: real): (d: nat)
    requires 0.0 <= r < 1.0
    ensures 4000 <= d < 8000
  {
    (4000.0 + r * 4000.0).Floor
  }

  /** One strip: a cursor into its list and at most one pending image timer. */
  class Strip {
    const items: seq<MediaItem>
    var currentIndex: nat
    var now: nat
    /** The due time of the pending image timer, if any. */
    var pending: Option<nat>
    var mounted: bool
    /** When the pending timer was armed. */
    ghost var armedAt: nat

    /**
     * The cursor is in range; a pending timer belongs to the image on show and is due
     * 4-8 s after it was armed; while mounted every image shown on a strip of two or
     * more items has its timer (a one-item strip cannot move, see `Advance`).
     */
    ghost predicate Valid()
      reads this
    {
      |items| > 0 && currentIndex < |items|
      && (!mounted ==> pending.None?)
      && (pending.Some? ==>
            items[currentIndex].kind == Image
            && armedAt <= now <= pending.value
            && 4000 <= pending.value - armedAt < 8000)
      && (mounted && |items| > 1 && items[currentIndex].kind == Image ==> pending.Some?)
    }

    /** Mount: cursor 0, and the effect for the first item. `r` is the value of `Math.random()`. */
    constructor (items: seq<MediaItem>, r: real)
      requires |items| > 0 && 0.0 <= r < 1.0
      ensures Valid() && mounted && this.items == items
      ensures currentIndex == 0 && now == 0
      ensures pending == (if items[0].kind == Image then Some(JitteredDelay(r)) else None)
    {
      this.items := items;
      currentIndex, now, mounted := 0, 0, true;
      armedAt := 0;
      pending := if items[0].kind == Image then Some(JitteredDelay(r)) else None;
    }

    /**
     * The effect for the item on show: an image arms one timer with a jittered delay, a
     * video arms none.
     */
    method ArmForCurrentItem(r: real)
      requires |items| > 0 && currentIndex < |items| && 0.0 <= r < 1.0
      modifies this`pending, this`armedAt
      ensures armedAt == now
      ensures pending == (if items[currentIndex].kind == Image then Some(now + JitteredDelay(r)) else None)
    {
      armedAt := now;
      pending := if items[currentIndex].kind == Image then Some(now + JitteredDelay(r)) else None;
    }

    /**
     * `setCurrentIndex(prev => (prev + 1) % items.length)`. When the index changes, the
     * effect's cleanup clears the pending timer and the effect runs for the new item; on a
     * one-item strip the index stays put, React skips the re-render and nothing is armed.
     */
    method Advance(r: real)
      requires |items| > 0 && currentIndex < |items| && mounted && pending.None? && 0.0 <= r < 1.0
      modifies this`currentIndex, this`pending, this`armedAt
      ensures Valid() && mounted
      ensures currentIndex == Cyclic.Next(old(currentIndex), |items|)
      ensures |items| > 1 ==>
        pending == (if items[currentIndex].kind == Image then Some(now + JitteredDelay(r)) else None)
      ensures |items| == 1 ==> pending.None?
    {
      var next := Cyclic.Next(currentIndex, |items|);
      if next != currentIndex {
        currentIndex := next;
        ArmForCurrentItem(r);
      }
    }

    /** The image timer fires: time moves to its due time and the strip advances. */
    method FireTimer(r: real)
      requires Valid() && pending.Some? && 0.0 <= r < 1.0
      modifies this`now, this`currentIndex, this`pending, this`armedAt
      ensures Valid() && mounted
      ensures now == old(pending.value)
      ensures currentIndex == Cyclic.Next(old(currentIndex), |items|)
      ensures |items| > 1 ==>
        pending == (if items[currentIndex].kind == Image then Some(now + JitteredDelay(r)) else None)
      ensures |items| == 1 ==> pending.None?
    {
      now := pending.value;
      pending := None;
      Advance(r);
    }

    /** The video on show ends at time `at`: the strip advances; no timer was involved. */
    method VideoEnded(at: nat, r: real)
      requires Valid() && mounted && items[currentIndex].kind == Video && now <= at && 0.0 <= r < 1.0
      modifies this`now, this`currentIndex, this`pending, this`armedAt
      ensures Valid() && mounted && now == at
      ensures currentIndex == Cyclic.Next(old(currentIndex), |items|)
      ensures |items| > 1 ==>
        pending == (if items[currentIndex].kind == Image then Some(at + JitteredDelay(r)) else None)
      ensures |items| == 1 ==> pending.None?
    {
      now := at;
      Advance(r);
    }

    /**
     * The gallery re-renders at time `at` (whenever the app's state changes) and passes a
     * freshly built list: the effect's cleanup clears the pending timer and the effect
     * runs again for the same item, so an image's delay starts over from `at`.
     */
    method Rerender(at: nat, r: real)
      requires Valid() && mounted && now <= at && (pending.Some? ==> at <= pending.value) && 0.0 <= r < 1.0
      modifies this`now, this`pending, this`armedAt
      ensures Valid() && mounted && now == at
      ensures pending == (if items[currentIndex].kind == Image then Some(at + JitteredDelay(r)) else None)
    {
      now := at;
      ArmForCurrentItem(r);
    }

    /** Unmount: the cleanup clears the pending timer. */
    method Teardown()
      requires Valid()
      modifies this`pending, this`mounted
      ensures Valid() && !mounted && pending.None?
    {
      pending, mounted := None, false;
    }
  }
}
