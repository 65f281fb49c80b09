/** The standalone animation prototype: a space-bar handler that cycles through the clips,
    its copy of `animate_system`, and the unregistered `animate_sprite_system`. */
module Prototype {
  import opened Components
  import opened Ecs
  import opened Animation

  /** Matched by the `(Mut<Player>, Mut<Animations>)` parameters of `player_input`. */
  predicate HasClips(e: Entity)
  {
    e.marker == Player && e.animations.Some?
  }

  /** `player_input` on one entity: a fresh press selects the next clip, back to the first
      after the last. With no clips at all, the press selects clip 0, which does not exist. */
  function CycleClip(e: Entity, justPressed: bool): (r: Entity)
    ensures !justPressed || !HasClips(e) ==> r == e
    ensures r.(animations := e.animations) == e
    ensures HasClips(e) ==> r.animations.Some? && r.animations.value.clips == e.animations.value.clips
    ensures HasClips(e) && justPressed ==>
      var cur, len := e.animations.value.current, |e.animations.value.clips|;
      && (0 <= cur < len <= 0x8000_0000 ==> r.animations.value.current == (cur + 1) % len)
      && (1 <= len <= VEC_LEN_MAX ==> SelectsClip(r.animations.value))
      && (len == 0 ==> r.animations.value.current == 0 && !SelectsClip(r.animations.value))
  {
    if justPressed && HasClips(e) then
      var a := e.animations.value;
      e.(animations := Some(a.(current := NextIndex(a.current, |a.clips|))))
    else
      e
  }

  method PlayerInputSystem(w: World, justPressed: bool)
    modifies w
    ensures w.State() == old(w.State()).(entities := MapEntities(old(w.entities), e => CycleClip(e, justPressed)))
  {
    if justPressed {
      w.entities := MapEntities(w.entities, e => CycleClip(e, justPressed));
    } else {
      assert MapEntities(w.entities, e => CycleClip(e, justPressed)) == w.entities;
    }
  }

  /** The entity after `n` presses. */
  function CycleTimes(e: Entity, n: nat): (r: Entity)
    ensures HasClips(e) ==> HasClips(r) && r.animations.value.clips == e.animations.value.clips
  {
    if n == 0 then e else CycleClip(CycleTimes(e, n - 1), true)
  }

  /** Pressing the key as many times as there are clips comes back to the clip one started
      from. */
  lemma {:induction false} CycleTimesIsModular(e: Entity, n: nat)
    requires HasClips(e)
    requires 0 <= e.animations.value.current < |e.animations.value.clips| <= 0x8000_0000
    ensures CycleTimes(e, n).animations.value.current ==
      (e.animations.value.current + n) % |e.animations.value.clips|
  {
    var cur, len := e.animations.value.current, |e.animations.value.clips|;
    if n > 0 {
      var x: nat := cur + n - 1;
      var p := CycleTimes(e, n - 1).animations.value.current;
      assert p == x % len by {
        CycleTimesIsModular(e, n - 1);
      }
      ModSucc(x, len);
    } else {
      ModOf(cur, len, 0, cur);
    }
  }

  /** The prototype's copy of `animate_system`: the same step as the game's, on the entities
      that also carry a texture-atlas handle. */
  function PrototypeAdvance(e: Entity): (r: Entity)
    requires CanAdvance(e)
    ensures e.atlasLen.Some? ==> r == Advance(e)
    ensures e.atlasLen.None? ==> r == e
  {
    if e.atlasLen.Some? then Advance(e) else e
  }

  method PrototypeAnimateSystem(w: World)
    requires forall id :: id in w.entities ==> CanAdvance(w.entities[id])
    modifies w
    ensures w.State() == old(w.State()).(entities := MapEntities(old(w.entities), PrototypeAdvance))
  {
    ghost var m0 := w.entities;
    var todo := set id | id in w.entities && InQuery(w.entities[id]) && w.entities[id].atlasLen.Some?;
    while todo != {}
      invariant todo <= m0.Keys && w.entities.Keys == m0.Keys
      invariant forall id :: id in m0 ==> w.entities[id] == if id in todo then m0[id] else PrototypeAdvance(m0[id])
      invariant w.State() == old(w.State()).(entities := w.entities)
      decreases todo
    {
      var id :| id in todo;
      var e := AnimateEntity(w.entities[id]);
      w.entities := w.entities[id := e];
      todo := todo - {id};
    }
  }

  /** Where every animated entity has an atlas handle, as in the prototype's one sprite
      sheet, its `animate_system` is the game's. */
  lemma SameAsGameAnimation(m: map<EntityId, Entity>)
    requires forall id :: id in m ==> CanAdvance(m[id]) && (InQuery(m[id]) ==> m[id].atlasLen.Some?)
    ensures MapEntities(m, PrototypeAdvance) == MapEntities(m, Advance)
  {
    forall id | id in m
      ensures PrototypeAdvance(m[id]) == Advance(m[id])
    {
      if m[id].atlasLen.None? {
        assert !Fires(m[id]);
      }
    }
  }

  /** `animate_sprite_system` on a sprite index, for an atlas of `len` textures:
      `((index as usize + 1) % len) as u32`. The remainder by zero panics, so the atlas must
      not be empty. */
  function NextSprite(index: U32, len: nat): (r: U32)
    requires len > 0
    ensures r < len
    ensures len <= 0x1_0000_0000 ==> r == (index + 1) % len
    ensures index < len <= 0x1_0000_0000 ==> r == if index + 1 == len then 0 else index + 1
  {
    var next := (index + 1) % len;
    assert len <= 0x1_0000_0000 ==> next % 0x1_0000_0000 == next by {
      if len <= 0x1_0000_0000 {
        ModOf(next, 0x1_0000_0000, 0, next);
      }
    }
    assert index < len ==> next == if index + 1 == len then 0 else index + 1 by {
      if index < len {
        if index + 1 == len {
          ModOf(index + 1, len, 1, 0);
        } else {
          ModOf(index + 1, len, 0, index + 1);
        }
      }
    }
    next % 0x1_0000_0000
  }

  /** Matched by `(&mut Timer, &mut TextureAtlasSprite, &Handle<TextureAtlas>)`. */
  predicate InSpriteQuery(e: Entity)
  {
    e.timer.Some? && e.atlasSprite.Some? && e.atlasLen.Some?
  }

  /** The atlas of an entity whose timer has finished has textures to cycle through. */
  predicate CanStep(e: Entity)
  {
    InSpriteQuery(e) && e.timer.value.finished ==> e.atlasLen.value > 0
  }

  function SpriteStep(e: Entity): (r: Entity)
    requires CanStep(e)
    ensures InSpriteQuery(e) && e.timer.value.finished ==>
      r == e.(atlasSprite := Some(NextSprite(e.atlasSprite.value, e.atlasLen.value)))
    ensures !(InSpriteQuery(e) && e.timer.value.finished) ==> r == e
    ensures InSpriteQuery(e) ==> r.atlasSprite.value < e.atlasLen.value || r == e
  {
    if InSpriteQuery(e) && e.timer.value.finished then
      e.(atlasSprite := Some(NextSprite(e.atlasSprite.value, e.atlasLen.value)))
    else
      e
  }

  method AnimateSpriteSystem(w: World)
    requires forall id :: id in w.entities ==> CanStep(w.entities[id])
    modifies w
    ensures w.State() == old(w.State()).(entities := MapEntities(old(w.entities), SpriteStep))
  {
    ghost var m0 := w.entities;
    var todo := set id | id in w.entities && InSpriteQuery(w.entities[id]);
    while todo != {}
      invariant todo <= m0.Keys && w.entities.Keys == m0.Keys
      invariant forall id :: id in m0 ==> w.entities[id] == if id in todo then m0[id] else SpriteStep(m0[id])
      invariant w.State() == old(w.State()).(entities := w.entities)
      decreases todo
    {
      var id :| id in todo;
      var e := w.entities[id];
      if e.timer.value.finished {
        e := e.(atlasSprite := Some(NextSprite(e.atlasSprite.value, e.atlasLen.value)));
      }
      w.entities := w.entities[id := e];
      todo := todo - {id};
    }
  }

  /** The prototype's bird: one sprite sheet cut into a 2x2 grid, a 0.1-second timer and two
      clips, the second a single frame. */
  const PROTOTYPE_ANIMATIONS: Animations := Animations([
    Clip([Frame(0, 0.1), Frame(1, 0.1), Frame(2, 0.3), Frame(1, 0.1)], 0),
    Clip([Frame(0, 0.2)], 0)], 0)

  /** With the prototype's two clips, pressing the key alternates between them and every
      selected clip can be advanced. */
  lemma PrototypeClipsAlternate(e: Entity)
    requires HasClips(e) && e.animations.value == PROTOTYPE_ANIMATIONS
    ensures CycleClip(e, true).animations.value.current == 1
    ensures CycleClip(CycleClip(e, true), true).animations.value.current == 0
    ensures e.timer.Some? && e.atlasSprite.Some? ==> CanAdvance(CycleClip(e, true))
  {
  }
}
