/**
 * Sprite sheet animations: a table of named stances, each a bitmap with its
 * own frame count and frame order, and a switch between them that restarts
 * the frame animation and arms a one-shot callback for the end of the
 * animation. `SpriteSheetAnim` draws on the strip layout; `SpriteSheetAnim4D`
 * on the four-direction layout, with a static flag per stance. Both extend
 * a frame sprite in the source; here each owns one, as `sprite`.
 */
module SpriteSheets {
  import opened Wrappers
  import opened SpriteFrames

  /** A stance: the frames of one bitmap, played in `frameOrder`. */
  datatype Stance = Stance(name: string, bitmap: Bitmap, nbrFrames: int, frameOrder: seq<int>)

  /** A stance of the four-direction sheet. */
  datatype Stance4D = Stance4D(stance: Stance, isStatic: bool)

  /** A stance the frame sprite can play: at least one frame and a non-empty order. */
  predicate Playable(st: Stance)
  {
    st.nbrFrames > 0 && st.frameOrder != []
  }

  /** The stance the load listener of `defineStance` records; the order defaults to `[0..nbrFrames-1]`. */
  function NewStance(name: string, bitmap: Bitmap, nbrFrames: nat, frameOrder: Option<seq<int>>): (st: Stance)
    ensures st.name == name && st.bitmap == bitmap && st.nbrFrames == nbrFrames
    ensures frameOrder.Some? ==> st.frameOrder == frameOrder.value
    ensures frameOrder.None? ==> |st.frameOrder| == nbrFrames && forall i :: 0 <= i < nbrFrames ==> st.frameOrder[i] == i
  {
    Stance(name, bitmap, nbrFrames, if frameOrder.Some? then frameOrder.value else Range(nbrFrames))
  }

  /** The animation state `setStance` leaves: the stance's frames from the top, running as `kind`, the delay kept. */
  function Started(delay: int, st: Stance, kind: AnimationType): Anim
  {
    Anim(0, delay, st.frameOrder, 0, 0, None, Some(kind), st.nbrFrames)
  }

  class SpriteSheetAnim {
    const sprite: SpriteFrame
    var stances: map<string, Stance>
    var defaultStance: Option<Stance>
    /** The callback armed by `setStance`, by number. */
    var callback: Option<nat>
    /** The callbacks that have run, in order. */
    var calls: seq<nat>

    ghost predicate Valid()
      reads this, sprite
    {
      sprite.Valid() && sprite.layout == Strip && forall name :: name in stances ==> Playable(stances[name])
    }

    /** `new SpriteSheetAnim()`: a one-frame sprite without bitmap and no stances. */
    constructor()
      ensures Valid() && fresh(sprite)
      ensures sprite.bitmap.None? && sprite.frame.None? && sprite.State() == Anim(0, 8, [0], 0, 0, None, None, 1)
      ensures stances == map[] && defaultStance.None? && callback.None? && calls == []
    {
      sprite := new SpriteFrame(None, 1);
      stances := map[];
      defaultStance := None;
      callback := None;
      calls := [];
    }

    /**
     * `setStance(name, animType, callback)`: an unknown name changes
     * nothing; a known one loads its bitmap, frame count and order, starts
     * the animation from the top and arms the callback.
     */
    method SetStance(name: string, kind: AnimationType, cb: Option<nat>)
      requires Valid()
      modifies this, sprite
      ensures Valid()
      ensures stances == old(stances) && defaultStance == old(defaultStance) && calls == old(calls)
      ensures sprite.layout == old(sprite.layout)
      ensures name !in old(stances) ==>
                callback == old(callback) && sprite.State() == old(sprite.State()) &&
                sprite.bitmap == old(sprite.bitmap) && sprite.frame == old(sprite.frame)
      ensures name in old(stances) ==>
                callback == cb && sprite.bitmap == Some(stances[name].bitmap) &&
                sprite.State() == Started(old(sprite.frameDelay), stances[name], kind) &&
                sprite.frame == Some(sprite.Current())
    {
      if name in stances {
        var st := stances[name];
        sprite.StopFrameAnimation();
        sprite.bitmap := Some(st.bitmap);
        sprite.nbrFrames := st.nbrFrames;
        sprite.ResetFrameIndex();
        sprite.SetFrameOrder(st.frameOrder);
        sprite.StartFrameAnimation(kind);
        sprite.UpdateFrameAnimation();
        callback := cb;
      }
    }

    /**
     * The load listener of `defineStance(name, bitmap, nbrFrames,
     * frameOrder, isDefault)`: records the stance; a default stance
     * is kept as such and started as an endless animation.
     */
    method DefineStance(name: string, bitmap: Bitmap, nbrFrames: nat, frameOrder: Option<seq<int>>, isDefault: bool)
      requires Valid() && nbrFrames > 0 && (frameOrder.Some? ==> frameOrder.value != [])
      modifies this, sprite
      ensures Valid()
      ensures stances == old(stances)[name := NewStance(name, bitmap, nbrFrames, frameOrder)] && calls == old(calls)
      ensures sprite.layout == old(sprite.layout)
      ensures isDefault ==>
                defaultStance == Some(stances[name]) && callback.None? && sprite.bitmap == Some(bitmap) &&
                sprite.State() == Started(old(sprite.frameDelay), stances[name], Inf) &&
                sprite.frame == Some(sprite.Current())
      ensures !isDefault ==>
                defaultStance == old(defaultStance) && callback == old(callback) && sprite.State() == old(sprite.State()) &&
                sprite.bitmap == old(sprite.bitmap) && sprite.frame == old(sprite.frame)
    {
      stances := stances[name := NewStance(name, bitmap, nbrFrames, frameOrder)];
      if isDefault {
        defaultStance := Some(stances[name]);
        SetStance(name, Inf, None);
      }
    }

    /** `onAnimationEnd()`: the frame sprite's end handling, then the armed callback runs once and is disarmed. */
    method OnAnimationEnd()
      requires Valid() && sprite.bitmap.Some?
      modifies this, sprite
      ensures Valid()
      ensures sprite.State() == Ended(old(sprite.State())) && sprite.bitmap == old(sprite.bitmap) && sprite.layout == old(sprite.layout)
      ensures sprite.frame == if old(sprite.animationType) in {Some(Once), Some(Run)} then Some(sprite.Current()) else old(sprite.frame)
      ensures stances == old(stances) && defaultStance == old(defaultStance) && callback.None?
      ensures calls == old(calls) + (if old(callback).Some? then [old(callback).value] else [])
    {
      sprite.OnAnimationEnd();
      if callback.Some? {
        calls := calls + [callback.value];
        callback := None;
      }
    }

    /**
     * `update()`: the frame sprite's update, whose end of animation runs
     * the armed callback once.
     */
    method Update(ready: bool)
      requires Valid()
      modifies this, sprite
      ensures Valid()
      ensures sprite.bitmap == old(sprite.bitmap) && sprite.layout == old(sprite.layout)
      ensures stances == old(stances) && defaultStance == old(defaultStance)
      ensures old(sprite.bitmap.Some? && ready && sprite.animationType.Some?) ==>
                sprite.State() == Ticked(old(sprite.State())) && sprite.frame == Some(sprite.Current())
      ensures !old(sprite.bitmap.Some? && ready && sprite.animationType.Some?) ==>
                sprite.State() == old(sprite.State()) && sprite.frame == old(sprite.frame)
      ensures if old(sprite.bitmap.Some? && ready && sprite.animationType.Some?) && Wraps(old(sprite.State())) then
                callback.None? && calls == old(calls) + (if old(callback).Some? then [old(callback).value] else [])
              else
                callback == old(callback) && calls == old(calls)
    {
      var ended := sprite.Update(ready);
      if ended && callback.Some? {
        calls := calls + [callback.value];
        callback := None;
      }
    }
  }

  class SpriteSheetAnim4D {
    const sprite: SpriteFrame
    var stances: map<string, Stance4D>
    var defaultStance: Option<Stance4D>
    /** The callback armed by `setStance`, by number. */
    var callback: Option<nat>
    /** The callbacks that have run, in order. */
    var calls: seq<nat>

    ghost predicate Valid()
      reads this, sprite
    {
      sprite.Valid() && sprite.layout.Rows? && forall name :: name in stances ==> Playable(stances[name].stance)
    }

    /** `new SpriteSheetAnim4D()`: a four-direction sprite without bitmap and no stances. */
    constructor()
      ensures Valid() && fresh(sprite)
      ensures sprite.bitmap.None? && sprite.frame.None? && sprite.layout == Rows(2, false)
      ensures sprite.State() == Anim(0, 8, [0], 0, 0, None, None, 1)
      ensures stances == map[] && defaultStance.None? && callback.None? && calls == []
    {
      sprite := new SpriteFrame.FourDirections();
      stances := map[];
      defaultStance := None;
      callback := None;
      calls := [];
    }

    /** `setStance(name, animType, callback)`: as for the strip sheet, and the sprite takes the stance's static flag. */
    method SetStance(name: string, kind: AnimationType, cb: Option<nat>)
      requires Valid()
      modifies this, sprite
      ensures Valid()
      ensures stances == old(stances) && defaultStance == old(defaultStance) && calls == old(calls)
      ensures name !in old(stances) ==>
                callback == old(callback) && sprite.State() == old(sprite.State()) && sprite.layout == old(sprite.layout) &&
                sprite.bitmap == old(sprite.bitmap) && sprite.frame == old(sprite.frame)
      ensures name in old(stances) ==>
                callback == cb && sprite.bitmap == Some(stances[name].stance.bitmap) &&
                sprite.layout == old(sprite.layout).(isStatic := stances[name].isStatic) &&
                sprite.State() == Started(old(sprite.frameDelay), stances[name].stance, kind) &&
                sprite.frame == Some(sprite.Current())
    {
      if name in stances {
        var st := stances[name];
        sprite.StopFrameAnimation();
        sprite.bitmap := Some(st.stance.bitmap);
        sprite.nbrFrames := st.stance.nbrFrames;
        sprite.ResetFrameIndex();
        sprite.SetFrameOrder(st.stance.frameOrder);
        sprite.SetStatic(st.isStatic);
        sprite.StartFrameAnimation(kind);
        sprite.UpdateFrameAnimation();
        callback := cb;
      }
    }

    /** The load listener of `defineStance(name, bitmap, nbrFrames, frameOrder, isStatic, isDefault)`. */
    method DefineStance(name: string, bitmap: Bitmap, nbrFrames: nat, frameOrder: Option<seq<int>>, isStatic: bool, isDefault: bool)
      requires Valid() && nbrFrames > 0 && (frameOrder.Some? ==> frameOrder.value != [])
      modifies this, sprite
      ensures Valid()
      ensures stances == old(stances)[name := Stance4D(NewStance(name, bitmap, nbrFrames, frameOrder), isStatic)]
      ensures calls == old(calls)
      ensures isDefault ==>
                defaultStance == Some(stances[name]) && callback.None? && sprite.bitmap == Some(bitmap) &&
                sprite.layout == old(sprite.layout).(isStatic := isStatic) &&
                sprite.State() == Started(old(sprite.frameDelay), stances[name].stance, Inf) &&
                sprite.frame == Some(sprite.Current())
      ensures !isDefault ==>
                defaultStance == old(defaultStance) && callback == old(callback) && sprite.State() == old(sprite.State()) &&
                sprite.layout == old(sprite.layout) && sprite.bitmap == old(sprite.bitmap) && sprite.frame == old(sprite.frame)
    {
      stances := stances[name := Stance4D(NewStance(name, bitmap, nbrFrames, frameOrder), isStatic)];
      if isDefault {
        defaultStance := Some(stances[name]);
        SetStance(name, Inf, None);
      }
    }

    /** `onAnimationEnd()`: the frame sprite's end handling, then the armed callback runs once and is disarmed. */
    method OnAnimationEnd()
      requires Valid() && sprite.bitmap.Some?
      modifies this, sprite
      ensures Valid()
      ensures sprite.State() == Ended(old(sprite.State())) && sprite.bitmap == old(sprite.bitmap) && sprite.layout == old(sprite.layout)
      ensures sprite.frame == if old(sprite.animationType) in {Some(Once), Some(Run)} then Some(sprite.Current()) else old(sprite.frame)
      ensures stances == old(stances) && defaultStance == old(defaultStance) && callback.None?
      ensures calls == old(calls) + (if old(callback).Some? then [old(callback).value] else [])
    {
      sprite.OnAnimationEnd();
      if callback.Some? {
        calls := calls + [callback.value];
        callback := None;
      }
    }

    /** `update()`: the frame sprite's update, whose end of animation runs the armed callback once. */
    method Update(ready: bool)
      requires Valid()
      modifies this, sprite
      ensures Valid()
      ensures sprite.bitmap == old(sprite.bitmap) && sprite.layout == old(sprite.layout)
      ensures stances == old(stances) && defaultStance == old(defaultStance)
      ensures old(sprite.bitmap.Some? && ready && sprite.animationType.Some?) ==>
                sprite.State() == Ticked(old(sprite.State())) && sprite.frame == Some(sprite.Current())
      ensures !old(sprite.bitmap.Some? && ready && sprite.animationType.Some?) ==>
                sprite.State() == old(sprite.State()) && sprite.frame == old(sprite.frame)
      ensures if old(sprite.bitmap.Some? && ready && sprite.animationType.Some?) && Wraps(old(sprite.State())) then
                callback.None? && calls == old(calls) + (if old(callback).Some? then [old(callback).value] else [])
              else
                callback == old(callback) && calls == old(calls)
    {
      var ended := sprite.Update(ready);
      if ended && callback.Some? {
        calls := calls + [callback.value];
        callback := None;
      }
    }
  }
}
