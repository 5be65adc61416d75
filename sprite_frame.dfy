/**
 * The frame animation of a sprite sheet laid out as one strip of frames:
 * a delay counter, a position in the frame order, an optional fixed frame
 * and the animation type ("once", "run", "inf") decide which frame is shown.
 * The four-direction variant `SpriteFrame4D`, whose only override is the
 * frame rectangle, is the same class with the `Rows` layout: its bitmap
 * holds one row of frames per direction.
 */
module SpriteFrames {
  import opened Wrappers

  datatype AnimationType = Once | Run | Inf

  /** The argument of `setFrameIndex`: a frame number or `'last'`. */
  datatype FrameIndex = At(index: int) | LastFrame

  /** A direction of the number pad convention: 2 down, 4 left, 6 right, 8 up. */
  type Direction = d: int | d == 2 || d == 4 || d == 6 || d == 8 witness 2

  /** Which frame rectangle `updateFrameAnimation` computes: the base strip, or the rows of `SpriteFrame4D`. */
  datatype Layout = Strip | Rows(dir: Direction, isStatic: bool)

  /** The image a sprite draws from; `id` tells images of equal size apart. */
  datatype Bitmap = Bitmap(id: nat, width: real, height: real)

  /** The part of the bitmap the sprite shows, as passed to `setFrame`. */
  datatype Rect = Rect(x: real, y: real, w: real, h: real)

  /** The animation fields of a sprite. */
  datatype Anim = Anim(counter: int, delay: int, order: seq<int>, orderIndex: int, frameIndex: int,
                       fixed: Option<int>, kind: Option<AnimationType>, nbrFrames: int)

  /** What the methods keep: at least one frame, a non-empty order indexed in range, a counter in `[0, delay]`. */
  predicate Steady(a: Anim)
  {
    a.nbrFrames > 0 && a.order != [] && 0 <= a.orderIndex < |a.order| &&
    0 <= a.counter && (a.delay >= 0 ==> a.counter <= a.delay)
  }

  /** `[0, 1, ..., n - 1]`, the default frame order. */
  function Range(n: nat): (r: seq<int>)
    ensures |r| == n && forall i :: 0 <= i < n ==> r[i] == i
  {
    seq(n, i => i)
  }

  /** The frame on display: the fixed one if set, else the current one of the order. */
  function Shown(a: Anim): int
  {
    if a.fixed.Some? then a.fixed.value else a.frameIndex
  }

  /** `stopFrameAnimation`. */
  function Stopped(a: Anim): Anim
  {
    a.(kind := None, counter := 0)
  }

  /** `setFrameIndex(index)`: stops the animation and fixes the frame, `'last'` being the last one of the sheet. */
  function FixedAt(a: Anim, index: FrameIndex): (r: Anim)
    ensures r.kind.None? && r.counter == 0 && r.fixed.Some?
    ensures r.fixed.value == (if index.LastFrame? then a.nbrFrames - 1 else index.index)
    ensures r.order == a.order && r.orderIndex == a.orderIndex && r.frameIndex == a.frameIndex && r.delay == a.delay
  {
    Stopped(a).(fixed := Some(if index.LastFrame? then a.nbrFrames - 1 else index.index))
  }

  /** `onAnimationEnd`: "once" stops on the last frame, "run" on the first, "inf" goes on. */
  function Ended(a: Anim): Anim
  {
    match a.kind
    case Some(Once) => FixedAt(a, LastFrame)
    case Some(Run) => FixedAt(a, At(0))
    case _ => a
  }

  /** The order index wraps at this tick, which runs the end handling. */
  predicate Wraps(a: Anim)
  {
    a.counter == a.delay && a.orderIndex + 1 >= |a.order|
  }

  /**
   * `updateFrameIndex`: the counter climbs to the delay; at the delay it
   * restarts at 0 and the order index moves on, wrapping to 0 through
   * the end handling; the current frame follows the order index.
   */
  function Ticked(a: Anim): (r: Anim)
    requires Steady(a)
    ensures Steady(r)
    ensures r.order == a.order && r.delay == a.delay && r.nbrFrames == a.nbrFrames
  {
    if a.counter == a.delay then
      var b := a.(counter := 0, orderIndex := a.orderIndex + 1);
      var c := if b.orderIndex >= |b.order| then Ended(b.(orderIndex := 0)) else b;
      c.(frameIndex := c.order[c.orderIndex])
    else
      a.(counter := a.counter + 1)
  }

  /** `k` calls of `updateFrameIndex`. */
  function Ticks(a: Anim, k: nat): (r: Anim)
    requires Steady(a)
    ensures Steady(r)
    ensures r.order == a.order && r.delay == a.delay && r.nbrFrames == a.nbrFrames
  {
    if k == 0 then a else Ticked(Ticks(a, k - 1))
  }

  /** The frame rectangle of `updateFrameAnimation`, for frame `f` of a sheet of `nbrFrames` frames. */
  function FrameRect(b: Bitmap, nbrFrames: int, f: int, layout: Layout): Rect
    requires nbrFrames > 0
  {
    var w := b.width / nbrFrames as real;
    match layout
    case Strip => Rect(f as real * w, 0.0, w, b.height)
    case Rows(dir, isStatic) =>
      var h := b.height / (if isStatic then 1.0 else 4.0);
      Rect(f as real * w, if isStatic then 0.0 else h * dir as real / 2.0 - h, w, h)
  }

  class SpriteFrame {
    var bitmap: Option<Bitmap>
    var nbrFrames: int
    var frameIndex: int
    var fixedFrameIndex: Option<int>
    var frameOrder: seq<int>
    var frameOrderIndex: int
    var frameDelay: int
    var frameDelayCounter: int
    var animationType: Option<AnimationType>
    var layout: Layout
    /** The last rectangle passed to `setFrame`; `None` before the first. */
    var frame: Option<Rect>

    function State(): Anim
      reads this
    {
      Anim(frameDelayCounter, frameDelay, frameOrder, frameOrderIndex, frameIndex, fixedFrameIndex, animationType, nbrFrames)
    }

    ghost predicate Valid()
      reads this
    {
      Steady(State())
    }

    /** The rectangle of the frame on display. */
    function Current(): Rect
      reads this
      requires bitmap.Some? && nbrFrames > 0
    {
      FrameRect(bitmap.value, nbrFrames, Shown(State()), layout)
    }

    /** `new SpriteFrame(bitmap, nbrFrames)`: frame 0 of the order `[0..nbrFrames-1]`, delay 8, no animation. */
    constructor(bitmap: Option<Bitmap>, nbrFrames: int)
      requires nbrFrames > 0
      ensures Valid()
      ensures this.bitmap == bitmap && this.nbrFrames == nbrFrames && layout == Strip && frame.None?
      ensures State() == Anim(0, 8, Range(nbrFrames), 0, 0, None, None, nbrFrames)
    {
      this.bitmap := bitmap;
      this.nbrFrames := nbrFrames;
      frameIndex := 0;
      fixedFrameIndex := None;
      frameOrder := Range(nbrFrames);
      frameOrderIndex := 0;
      frameDelay := 8;
      frameDelayCounter := 0;
      animationType := None;
      layout := Strip;
      frame := None;
    }

    /** `new SpriteFrame4D()`: no bitmap, one frame, facing down, not static. */
    constructor FourDirections()
      ensures Valid()
      ensures bitmap.None? && nbrFrames == 1 && layout == Rows(2, false) && frame.None?
      ensures State() == Anim(0, 8, [0], 0, 0, None, None, 1)
    {
      bitmap := None;
      nbrFrames := 1;
      frameIndex := 0;
      fixedFrameIndex := None;
      frameOrder := Range(1);
      frameOrderIndex := 0;
      frameDelay := 8;
      frameDelayCounter := 0;
      animationType := None;
      layout := Rows(2, false);
      frame := None;
    }

    /** `setAnimDelay(speed)`: the new delay, with the counter back at 0. */
    method SetAnimDelay(speed: int)
      requires Valid()
      modifies this
      ensures Valid()
      ensures State() == old(State()).(delay := speed, counter := 0)
      ensures bitmap == old(bitmap) && layout == old(layout) && frame == old(frame)
    {
      frameDelay := speed;
      frameDelayCounter := 0;
    }

    /** `setFrameOrder(order)`: the new order, from its start. */
    method SetFrameOrder(order: seq<int>)
      requires Valid() && order != []
      modifies this
      ensures Valid()
      ensures State() == old(State()).(order := order, orderIndex := 0)
      ensures bitmap == old(bitmap) && layout == old(layout) && frame == old(frame)
    {
      frameOrder := order;
      frameOrderIndex := 0;
    }

    /** `startFrameAnimation(type)`: the animation runs and no frame is fixed any more. */
    method StartFrameAnimation(kind: AnimationType)
      requires Valid()
      modifies this
      ensures Valid()
      ensures State() == old(State()).(kind := Some(kind), fixed := None)
      ensures bitmap == old(bitmap) && layout == old(layout) && frame == old(frame)
    {
      animationType := Some(kind);
      fixedFrameIndex := None;
    }

    /** `stopFrameAnimation()`. */
    method StopFrameAnimation()
      requires Valid()
      modifies this
      ensures Valid()
      ensures State() == Stopped(old(State())) && State().kind.None? && State().counter == 0
      ensures bitmap == old(bitmap) && layout == old(layout) && frame == old(frame)
    {
      animationType := None;
      frameDelayCounter := 0;
    }

    /** `updateFrameAnimation()`: shows the current frame; it needs the bitmap. */
    method UpdateFrameAnimation()
      requires Valid() && bitmap.Some?
      modifies this
      ensures Valid()
      ensures State() == old(State()) && bitmap == old(bitmap) && layout == old(layout)
      ensures frame == Some(Current())
    {
      var f := frameIndex;
      if fixedFrameIndex.Some? {
        f := fixedFrameIndex.value;
      }
      frame := Some(FrameRect(bitmap.value, nbrFrames, f, layout));
    }

    /** `setFrameIndex(index)`: stops the animation and shows the fixed frame. */
    method SetFrameIndex(index: FrameIndex)
      requires Valid() && bitmap.Some?
      modifies this
      ensures Valid()
      ensures State() == FixedAt(old(State()), index)
      ensures bitmap == old(bitmap) && layout == old(layout) && frame == Some(Current())
    {
      StopFrameAnimation();
      fixedFrameIndex := Some(if index.LastFrame? then nbrFrames - 1 else index.index);
      UpdateFrameAnimation();
    }

    /** `resetFrameIndex()`. */
    method ResetFrameIndex()
      requires Valid()
      modifies this
      ensures Valid()
      ensures State() == old(State()).(frameIndex := 0)
      ensures bitmap == old(bitmap) && layout == old(layout) && frame == old(frame)
    {
      frameIndex := 0;
    }

    /** `onAnimationEnd()`: the base end handling; "once" and "run" fix a frame and show it. */
    method OnAnimationEnd()
      requires Valid() && bitmap.Some?
      modifies this
      ensures Valid()
      ensures State() == Ended(old(State()))
      ensures bitmap == old(bitmap) && layout == old(layout)
      ensures frame == if old(animationType) in {Some(Once), Some(Run)} then Some(Current()) else old(frame)
    {
      var kind := animationType;
      if kind == Some(Once) {
        SetFrameIndex(LastFrame);
      } else if kind == Some(Inf) {
      } else if kind == Some(Run) {
        SetFrameIndex(At(0));
      }
    }

    /**
     * `updateFrameIndex()`: one tick of the animation. `ended` tells that
     * the order wrapped and the end handling ran, which is where the sheet
     * animations hook their callback.
     */
    method UpdateFrameIndex() returns (ended: bool)
      requires Valid() && bitmap.Some?
      modifies this
      ensures Valid()
      ensures State() == Ticked(old(State())) && ended == Wraps(old(State()))
      ensures bitmap == old(bitmap) && layout == old(layout)
      ensures frame == if ended && old(animationType) in {Some(Once), Some(Run)} then Some(Current()) else old(frame)
    {
      ended := false;
      if frameDelayCounter == frameDelay {
        frameDelayCounter := 0;
        frameOrderIndex := frameOrderIndex + 1;
        if frameOrderIndex >= |frameOrder| {
          frameOrderIndex := 0;
          OnAnimationEnd();
          ended := true;
        }
        frameIndex := frameOrder[frameOrderIndex];
      } else {
        frameDelayCounter := frameDelayCounter + 1;
      }
    }

    /**
     * `update()`: the animation moves only while the bitmap is loaded
     * (`ready`) and an animation type is set; then it ticks and shows the
     * frame.
     */
    method Update(ready: bool) returns (ended: bool)
      requires Valid()
      modifies this
      ensures Valid()
      ensures bitmap == old(bitmap) && layout == old(layout)
      ensures old(bitmap.Some? && ready && animationType.Some?) ==>
                State() == Ticked(old(State())) && ended == Wraps(old(State())) && frame == Some(Current())
      ensures !old(bitmap.Some? && ready && animationType.Some?) ==>
                State() == old(State()) && frame == old(frame) && !ended
    {
      ended := false;
      if bitmap.Some? && ready && animationType.Some? {
        ended := UpdateFrameIndex();
        UpdateFrameAnimation();
      }
    }

    /** `setDirection(dir)` of `SpriteFrame4D`. */
    method SetDirection(dir: Direction)
      requires layout.Rows?
      modifies this
      ensures layout == old(layout).(dir := dir)
      ensures State() == old(State()) && bitmap == old(bitmap) && frame == old(frame)
    {
      layout := layout.(dir := dir);
    }

    /** `setStatic(static)` of `SpriteFrame4D`. */
    method SetStatic(isStatic: bool)
      requires layout.Rows?
      modifies this
      ensures layout == old(layout).(isStatic := isStatic)
      ensures State() == old(State()) && bitmap == old(bitmap) && frame == old(frame)
    {
      layout := layout.(isStatic := isStatic);
    }

    /** `isStatic()` of `SpriteFrame4D`. */
    function IsStatic(): (r: bool)
      reads this
      requires layout.Rows?
      ensures r <==> layout.isStatic
    {
      layout.isStatic
    }
  }

  // ---------------------------------------------------------------------------
  // Properties of the tick

  lemma MulSucc(k: nat, p: int)
    ensures (k + 1) * p == k * p + p
  {
  }

  lemma {:induction false} TicksAdd(a: Anim, k: nat, l: nat)
    requires Steady(a)
    ensures Ticks(a, k + l) == Ticks(Ticks(a, k), l)
  {
    if l > 0 {
      TicksAdd(a, k, l - 1);
    }
  }

  lemma TicksSnoc(a: Anim, k: nat)
    requires Steady(a)
    ensures Ticks(a, k + 1) == Ticked(Ticks(a, k))
  {
  }

  /** Below the delay, a tick only counts. */
  lemma {:induction false} TicksWait(a: Anim, k: nat)
    requires Steady(a) && a.counter + k <= a.delay
    ensures Ticks(a, k) == a.(counter := a.counter + k)
  {
    if k > 0 {
      TicksWait(a, k - 1);
    }
  }

  /** Frame `j` of the order on display, at the start of its delay. */
  function Playing(a: Anim, j: int): Anim
    requires 0 <= j < |a.order|
  {
    a.(counter := 0, orderIndex := j, frameIndex := a.order[j])
  }

  lemma PlayingTwice(a: Anim, i: int, j: int)
    requires 0 <= i < |a.order| && 0 <= j < |a.order|
    ensures Playing(Playing(a, i), j) == Playing(a, j)
  {
  }

  /** From a fresh counter, the order moves on by one frame every `delay + 1` ticks. */
  lemma AdvanceEvery(a: Anim)
    requires Steady(a) && a.counter == 0 && a.delay >= 0 && a.orderIndex + 1 < |a.order|
    ensures Ticks(a, a.delay + 1) == Playing(a, a.orderIndex + 1)
  {
    TicksWait(a, a.delay);
    TicksSnoc(a, a.delay);
  }

  /** `k` frames of the order take `n = k * (delay + 1)` ticks, with no end handling on the way. */
  lemma {:induction false} RunThrough(a: Anim, k: nat, n: nat)
    requires Steady(a) && a.counter == 0 && a.delay >= 0 && 0 < k && a.orderIndex + k < |a.order|
    requires n == k * (a.delay + 1)
    ensures Ticks(a, n) == Playing(a, a.orderIndex + k)
  {
    var p := a.delay + 1;
    if k == 1 {
      assert n == p;
      AdvanceEvery(a);
    } else {
      MulSucc(k - 1, p);
      var m := n - p;
      var b := Ticks(a, m);
      RunThrough(a, k - 1, m);
      TicksAdd(a, m, p);
      assert Ticks(a, n) == Ticks(b, p);
      AdvanceEvery(b);
      PlayingTwice(a, a.orderIndex + k - 1, a.orderIndex + k);
    }
  }

  /** At the end of the order the index wraps to its start and the end handling decides how to go on. */
  lemma EndOfOrder(a: Anim)
    requires Steady(a) && a.counter == 0 && a.delay >= 0 && a.orderIndex == |a.order| - 1
    ensures var r := Ticks(a, a.delay + 1);
      r.orderIndex == 0 && r.counter == 0 && r.frameIndex == a.order[0] &&
      (a.kind == Some(Once) ==> r.kind.None? && r.fixed == Some(a.nbrFrames - 1)) &&
      (a.kind == Some(Run) ==> r.kind.None? && r.fixed == Some(0)) &&
      (a.kind == Some(Inf) ==> r == Playing(a, 0))
  {
    TicksWait(a, a.delay);
    TicksSnoc(a, a.delay);
  }

  /** The state before the last frame's delay runs out: the last frame of the order, at the start of its delay. */
  lemma {:induction false} ToLastFrame(a: Anim, n: nat)
    requires Steady(a) && a.counter == 0 && a.delay >= 0 && a.orderIndex == 0
    requires n == (|a.order| - 1) * (a.delay + 1)
    ensures Ticks(a, n) == if |a.order| == 1 then a else Playing(a, |a.order| - 1)
  {
    if |a.order| > 1 {
      RunThrough(a, |a.order| - 1, n);
    }
  }

  /** What the end handling leaves after the last frame of a pass that started at the top of the order. */
  ghost predicate PassEnded(a: Anim, r: Anim)
    requires Steady(a)
  {
    r.orderIndex == 0 && r.counter == 0 && r.frameIndex == a.order[0] &&
    (a.kind == Some(Once) ==> r.kind.None? && r.fixed == Some(a.nbrFrames - 1)) &&
    (a.kind == Some(Run) ==> r.kind.None? && r.fixed == Some(0)) &&
    (a.kind == Some(Inf) ==> r == Playing(a, 0))
  }

  lemma LastFrameEnds(a: Anim, b: Anim)
    requires Steady(a) && a.counter == 0 && a.delay >= 0 && a.orderIndex == 0
    requires b == if |a.order| == 1 then a else Playing(a, |a.order| - 1)
    ensures Steady(b) && PassEnded(a, Ticks(b, a.delay + 1))
  {
    EndOfOrder(b);
    if |a.order| > 1 {
      PlayingTwice(a, |a.order| - 1, 0);
    }
  }

  /**
   * A full pass of the order from its top takes `n = |order| * (delay + 1)`
   * ticks: then "once" has stopped on the last frame, "run" has stopped on
   * the first, and "inf" is back where it started.
   */
  lemma FullPass(a: Anim, n: nat)
    requires Steady(a) && a.counter == 0 && a.delay >= 0 && a.orderIndex == 0
    requires n == |a.order| * (a.delay + 1)
    ensures PassEnded(a, Ticks(a, n))
  {
    var p := a.delay + 1;
    var m := (|a.order| - 1) * p;
    MulSucc(|a.order| - 1, p);
    ToLastFrame(a, m);
    TicksAdd(a, m, p);
    LastFrameEnds(a, Ticks(a, m));
  }

  lemma MulLess(a: nat, b: nat, p: nat)
    requires p > 0 && a * p < b * p
    ensures a < b
  {
  }

  /** Tick `k` of a pass is tick `c` of frame `j` of the order. */
  lemma DivideTicks(k: nat, p: nat, len: nat) returns (j: nat, c: nat)
    requires p > 0 && k + 1 < len * p
    ensures k == j * p + c && c < p && j < len && (j + 1 == len ==> c + 1 < p)
  {
    j := k / p;
    c := k % p;
    MulLess(j, len, p);
    if j + 1 == len {
      MulSucc(j, p);
    }
  }

  /** Inside a pass from the top, the ticks only move through the order. */
  lemma WithinPass(a: Anim, j: nat, c: nat, n: nat)
    requires Steady(a) && a.counter == 0 && a.delay >= 0 && a.orderIndex == 0
    requires j < |a.order| && c <= a.delay && n == j * (a.delay + 1) + c
    ensures Ticks(a, n).orderIndex == j && Ticks(a, n).counter == c
  {
    if j == 0 {
      TicksWait(a, c);
    } else {
      var m := j * (a.delay + 1);
      RunThrough(a, j, m);
      TicksAdd(a, m, c);
      TicksWait(Playing(a, j), c);
    }
  }

  /**
   * A pass from the top reaches the end handling only at its last tick, so
   * the animation ends once per pass.
   */
  lemma NoEarlyEnd(a: Anim, k: nat)
    requires Steady(a) && a.counter == 0 && a.delay >= 0 && a.orderIndex == 0
    requires k + 1 < |a.order| * (a.delay + 1)
    ensures !Wraps(Ticks(a, k))
  {
    var j, c := DivideTicks(k, a.delay + 1, |a.order|);
    WithinPass(a, j, c, k);
  }

  // ---------------------------------------------------------------------------
  // Properties of the frame rectangle

  /** A frame of the sheet lies inside the bitmap, and the frames split its width evenly. */
  lemma FrameInsideBitmap(b: Bitmap, nbrFrames: int, f: int, layout: Layout)
    requires nbrFrames > 0 && 0 <= f < nbrFrames && b.width >= 0.0 && b.height >= 0.0
    ensures var r := FrameRect(b, nbrFrames, f, layout);
      0.0 <= r.x && r.x + r.w <= b.width && 0.0 <= r.y && r.y + r.h <= b.height && r.w * nbrFrames as real == b.width
  {
    var w := b.width / nbrFrames as real;
    assert w * nbrFrames as real == b.width;
    assert 0.0 <= w;
    assert f as real * w + w == (f + 1) as real * w;
    assert (f + 1) as real * w <= nbrFrames as real * w;
  }

  /** Consecutive frames sit side by side. */
  lemma FramesSideBySide(b: Bitmap, nbrFrames: int, f: int, layout: Layout)
    requires nbrFrames > 0
    ensures FrameRect(b, nbrFrames, f + 1, layout).x == FrameRect(b, nbrFrames, f, layout).x + FrameRect(b, nbrFrames, f, layout).w
  {
  }

  /**
   * In the four-direction layout a static sprite shows the whole height;
   * otherwise the bitmap has four rows and directions 2, 4, 6, 8 pick
   * rows 0 to 3.
   */
  lemma RowOfDirection(b: Bitmap, nbrFrames: int, f: int, dir: Direction, isStatic: bool)
    requires nbrFrames > 0
    ensures var r := FrameRect(b, nbrFrames, f, Rows(dir, isStatic));
      (isStatic ==> r.y == 0.0 && r.h == b.height) &&
      (!isStatic ==> r.h * 4.0 == b.height && r.y == (dir / 2 - 1) as real * r.h)
  {
    assert dir as real / 2.0 == (dir / 2) as real;
  }
}
