/** Component and resource data of the flappy-bird world, and the machine-integer
    conversions the systems rely on. */
module Components {

  /** A Rust `i32`. */
  type I32 = x: int | -0x8000_0000 <= x <= 0x7fff_ffff

  /** A Rust `u32`. */
  type U32 = x: int | 0 <= x < 0x1_0000_0000

  /** Largest length a Rust `Vec` can have (`isize::MAX`). */
  const VEC_LEN_MAX: int := 0x7fff_ffff_ffff_ffff

  /** `v + 1` on an `i32` in a release build: `i32::MAX` wraps to `i32::MIN`. */
  function WrappingIncrement(v: I32): I32
  {
    if v == 0x7fff_ffff then -0x8000_0000 else v + 1
  }

  /** `v as usize` on a 64-bit target: a negative value becomes `2^64 + v`. */
  function AsUsize(v: I32): nat
  {
    if v >= 0 then v else 0x1_0000_0000_0000_0000 + v
  }

  /** `v as u32`: a negative value becomes `2^32 + v`. */
  function AsU32(v: I32): U32
  {
    if v >= 0 then v else 0x1_0000_0000 + v
  }

  datatype Option<T> = None | Some(value: T)

  /** Bevy's `Vec2` and `Vec3`, with `f32` coordinates modelled as reals. */
  datatype Vec2 = Vec2(x: real, y: real)
  datatype Vec3 = Vec3(x: real, y: real, z: real)

  datatype GameState = Menu | Playing | Dead

  /** The `GameData` resource. */
  datatype GameData = GameData(state: GameState, score: int)

  datatype Collider = Solid | ScoreGiver

  /** The marker components `Player`, `Pipe`, `StartScreen` and `EndScreen`; no entity of the
      game carries two of them. */
  datatype Marker = Player | Pipe | StartScreen | EndScreen | Unmarked

  /** Bevy's `Timer`, reduced to what the systems read and write: its duration and whether it
      has finished (ticking is Bevy's own system). */
  datatype Timer = Timer(duration: real, finished: bool)

  /** `AnimationFrame`, `Animation` and `Animations`. */
  datatype Frame = Frame(index: I32, time: real)
  datatype Clip = Clip(frames: seq<Frame>, currentFrame: I32)
  datatype Animations = Animations(clips: seq<Clip>, current: I32)

  /** One entity with the components it may carry. Every entity of the game has a
      `Translation`; the others are optional.
      - `gravity`: the `AffectedByGravity` marker;
      - `offscreen`: the `OffsceenDeletion` marker;
      - `visible`: `Draw.is_visible`, when the entity has a `Draw`;
      - `sprite`: `Sprite.size`, when the entity has a plain `Sprite`;
      - `atlasSprite`: `TextureAtlasSprite.index`;
      - `atlasLen`: the number of textures in the atlas its `Handle<TextureAtlas>` points to. */
  datatype Entity = Entity(
    marker: Marker,
    translation: Vec3,
    velocity: Option<Vec2>,
    gravity: bool,
    collider: Option<Collider>,
    offscreen: bool,
    visible: Option<bool>,
    sprite: Option<Vec2>,
    timer: Option<Timer>,
    atlasSprite: Option<U32>,
    atlasLen: Option<nat>,
    animations: Option<Animations>)

  /** The `SpawnTimer` resource: the timer's duration and the last gap centre, as a signed
      fraction of half the screen height. */
  datatype SpawnTimer = SpawnTimer(duration: real, lastPos: real)

  type EntityId = nat
}
