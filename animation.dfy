/** `animate_system`: frame-timer driven sprite animation over a list of clips. */
module Animation {
  import opened Components
  import opened Ecs

  /** The index that follows `cur` in a list of `len` elements, as both `animate_system` and
      the prototype's clip cycling compute it: `cur += 1` on the `i32`, then back to 0 when
      `cur as usize >= len`. */
  function NextIndex(cur: I32, len: nat): (r: I32)
    ensures AsUsize(r) < len || (len == 0 && r == 0)
    ensures 1 <= len <= VEC_LEN_MAX ==> 0 <= r < len
    ensures 0 <= cur < len <= 0x8000_0000 ==> r == (cur + 1) % len
    ensures len == 0 ==> r == 0
  {
    var next := WrappingIncrement(cur);
    assert 0 <= cur < len ==> (cur + 1) % len == if cur + 1 == len then 0 else cur + 1 by {
      if 0 <= cur < len {
        if cur + 1 == len {
          ModOf(cur + 1, len, 1, 0);
        } else {
          ModOf(cur + 1, len, 0, cur + 1);
        }
      }
    }
    if AsUsize(next) >= len then 0 else next
  }

  /** The entity is matched by the `(&mut Timer, &mut TextureAtlasSprite, &mut Animations)` query. */
  predicate InQuery(e: Entity)
  {
    e.timer.Some? && e.atlasSprite.Some? && e.animations.Some?
  }

  /** `animations.get_mut(current_animation as usize)` finds a clip. */
  predicate SelectsClip(a: Animations)
  {
    AsUsize(a.current) < |a.clips|
  }

  /** The entity's timer has finished and its current clip exists: this tick advances it. */
  predicate Fires(e: Entity)
  {
    InQuery(e) && e.timer.value.finished && SelectsClip(e.animations.value)
  }

  function SelectedClip(e: Entity): Clip
    requires Fires(e)
  {
    e.animations.value.clips[AsUsize(e.animations.value.current)]
  }

  /** The `unwrap` on the new frame panics when the selected clip has no frames; every
      entity the system reaches must avoid that. */
  predicate CanAdvance(e: Entity)
  {
    Fires(e) ==> |SelectedClip(e).frames| > 0
  }

  /** One entity after `animate_system`: when its timer has finished and the current clip
      exists, that clip moves to its next frame, the timer takes the frame's duration and the
      sprite shows the frame's index; nothing else changes. */
  function Advance(e: Entity): (r: Entity)
    requires CanAdvance(e)
    ensures !Fires(e) ==> r == e
    ensures r.(timer := e.timer, atlasSprite := e.atlasSprite, animations := e.animations) == e
    ensures Fires(r) == Fires(e) && CanAdvance(r)
    ensures Fires(e) ==>
      var a, k, clip := e.animations.value, AsUsize(e.animations.value.current), SelectedClip(e);
      var f := NextIndex(clip.currentFrame, |clip.frames|);
      && r.animations.value.current == a.current
      && |r.animations.value.clips| == |a.clips|
      && (forall j :: 0 <= j < |a.clips| && j != k ==> r.animations.value.clips[j] == a.clips[j])
      && SelectedClip(r) == clip.(currentFrame := f)
      && AsUsize(f) < |clip.frames|
      && r.timer == Some(e.timer.value.(duration := clip.frames[AsUsize(f)].time))
      && r.atlasSprite == Some(AsU32(clip.frames[AsUsize(f)].index))
  {
    if !Fires(e) then e
    else
      var a := e.animations.value;
      var k := AsUsize(a.current);
      var clip := a.clips[k];
      var f := NextIndex(clip.currentFrame, |clip.frames|);
      var frame := clip.frames[AsUsize(f)];
      e.(timer := Some(e.timer.value.(duration := frame.time)),
         atlasSprite := Some(AsU32(frame.index)),
         animations := Some(a.(clips := a.clips[k := clip.(currentFrame := f)])))
  }

  /** The body of the query loop for one entity, step by step as the source writes it. */
  method AnimateEntity(e: Entity) returns (r: Entity)
    requires InQuery(e) && CanAdvance(e)
    ensures r == Advance(e)
  {
    var timer, sprite, anims := e.timer.value, e.atlasSprite.value, e.animations.value;
    if timer.finished {
      var k := AsUsize(anims.current);
      if k < |anims.clips| {
        var clip := anims.clips[k];
        clip := clip.(currentFrame := WrappingIncrement(clip.currentFrame));
        if AsUsize(clip.currentFrame) >= |clip.frames| {
          clip := clip.(currentFrame := 0);
        }
        // the `unwrap` and the `if let` read the same frame
        var frame := clip.frames[AsUsize(clip.currentFrame)];
        timer := timer.(duration := frame.time);
        sprite := AsU32(frame.index);
        anims := anims.(clips := anims.clips[k := clip]);
      }
    }
    r := e.(timer := Some(timer), atlasSprite := Some(sprite), animations := Some(anims));
  }

  method AnimateSystem(w: World)
    requires forall id :: id in w.entities ==> CanAdvance(w.entities[id])
    modifies w
    ensures w.State() == old(w.State()).(entities := MapEntities(old(w.entities), Advance))
  {
    ghost var m0 := w.entities;
    var todo := set id | id in w.entities && InQuery(w.entities[id]);
    while todo != {}
      invariant todo <= m0.Keys && w.entities.Keys == m0.Keys
      invariant forall id :: id in m0 ==> w.entities[id] == if id in todo then m0[id] else Advance(m0[id])
      invariant w.State() == old(w.State()).(entities := w.entities)
      decreases todo
    {
      var id :| id in todo;
      var e := AnimateEntity(w.entities[id]);
      w.entities := w.entities[id := e];
      todo := todo - {id};
    }
  }

  /** The entity after `n` ticks of `animate_system` on which its timer had finished. */
  function AdvanceTimes(e: Entity, n: nat): (r: Entity)
    requires CanAdvance(e)
    ensures CanAdvance(r) && Fires(r) == Fires(e)
    ensures Fires(e) ==> SelectedClip(r).frames == SelectedClip(e).frames
  {
    if n == 0 then e else Advance(AdvanceTimes(e, n - 1))
  }

  /** Repeated firing cycles through the selected clip: after `n` firings the clip is at
      frame `(cur + n) mod len`. */
  lemma {:induction false} AdvanceTimesCycles(e: Entity, n: nat)
    requires Fires(e)
    requires 0 <= SelectedClip(e).currentFrame < |SelectedClip(e).frames| <= 0x8000_0000
    ensures SelectedClip(AdvanceTimes(e, n)).currentFrame ==
      (SelectedClip(e).currentFrame + n) % |SelectedClip(e).frames|
  {
    var len, cur := |SelectedClip(e).frames|, SelectedClip(e).currentFrame;
    if n > 0 {
      var x: nat := cur + n - 1;
      var p := SelectedClip(AdvanceTimes(e, n - 1)).currentFrame;
      assert p == x % len by {
        AdvanceTimesCycles(e, n - 1);
      }
      assert SelectedClip(AdvanceTimes(e, n)).currentFrame == (p + 1) % len by {
        AdvanceOnce(AdvanceTimes(e, n - 1));
      }
      ModSucc(x, len);
    } else {
      ModOf(cur, len, 0, cur);
    }
  }

  lemma AdvanceOnce(e: Entity)
    requires Fires(e) && CanAdvance(e)
    requires 0 <= SelectedClip(e).currentFrame < |SelectedClip(e).frames| <= 0x8000_0000
    ensures SelectedClip(Advance(e)).currentFrame ==
      (SelectedClip(e).currentFrame + 1) % |SelectedClip(e).frames|
  {
  }

  lemma ModSucc(x: nat, len: nat)
    requires len > 0
    ensures (x % len + 1) % len == (x + 1) % len
  {
    var q, r := x / len, x % len;
    if r + 1 < len {
      ModOf(x + 1, len, q, r + 1);
      ModOf(r + 1, len, 0, r + 1);
    } else {
      ModOf(x + 1, len, q + 1, 0);
      ModOf(r + 1, len, 1, 0);
    }
  }

  /** Euclidean remainder is unique. */
  lemma ModOf(y: int, len: int, q: int, r: int)
    requires len > 0 && 0 <= r < len && y == q * len + r
    ensures y % len == r
  {
    var q', r' := y / len, y % len;
    assert (q' - q) * len == r - r';
    MulBound(q' - q, len);
  }

  lemma MulBound(k: int, len: int)
    requires len > 0
    ensures k >= 1 ==> k * len >= len
    ensures k <= -1 ==> k * len <= -len
  {
  }
}
