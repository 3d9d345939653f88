/**
 * The shared game vocabulary of the backend: the application's game modes and
 * their conversion to and from the persisted mode, the paddle inputs, the players,
 * the power-up effects, the ball states, and the integer sizes and millisecond
 * timings every match is played with.
 */
module GameDefinitions {
  import opened Results
  import PrismaClient

  // ---------------------------------------------------------------------------
  // Game modes

  /** The application's game modes; the two last ones have no persisted form. */
  datatype GameMode = Normal | FreeMove | PowerUp | Fiesta | UnMatched | NotQueued {

    /** The string value each member carries at run time. */
    function Tag(): string {
      match this
      case Normal => "Normal"
      case FreeMove => "FreeMove"
      case PowerUp => "PowerUp"
      case Fiesta => "Fiesta"
      case UnMatched => "UnMatched"
      case NotQueued => "NotQueued"
    }

    /** The member's declared name, which the persisted mode reuses. */
    function Name(): string {
      match this
      case Normal => "NORMAL"
      case FreeMove => "FREEMOVE"
      case PowerUp => "POWERUP"
      case Fiesta => "FIESTA"
      case UnMatched => "UNMATCHED"
      case NotQueued => "NOTQUEUED"
    }
  }

  /** The modes in which a match is actually played, and which can be persisted. */
  predicate Playable(m: GameMode) {
    m != UnMatched && m != NotQueued
  }

  /**
   * Converts a mode to its persisted form. The two modes without one fall into the
   * switch's default branch, which throws; that branch is `None`.
   */
  function ToPrismaGameMode(mode: GameMode): (r: Option<PrismaClient.GameMode>)
    ensures r.None? <==> mode == UnMatched || mode == NotQueued
    ensures r.Some? ==> r.value.Name() == mode.Name()
  {
    match mode
    case Normal => Some(PrismaClient.NORMAL)
    case FreeMove => Some(PrismaClient.FREEMOVE)
    case PowerUp => Some(PrismaClient.POWERUP)
    case Fiesta => Some(PrismaClient.FIESTA)
    case _ => None
  }

  /**
   * Converts a persisted mode back. The persisted enumeration is closed, so the
   * source's default branch is never reached and the conversion is total.
   */
  function ToGameMode(mode: PrismaClient.GameMode): (r: GameMode)
    ensures r.Name() == mode.Name()
    ensures Playable(r)
    ensures ToPrismaGameMode(r) == Some(mode)
  {
    match mode
    case NORMAL => Normal
    case FREEMOVE => FreeMove
    case POWERUP => PowerUp
    case FIESTA => Fiesta
  }

  /** Converting a playable mode and back gives the mode itself. */
  lemma PlayableRoundTrip(m: GameMode)
    requires ToPrismaGameMode(m).Some?
    ensures Playable(m)
    ensures ToGameMode(ToPrismaGameMode(m).value) == m
  {
  }

  /** Distinct playable modes are never persisted as the same mode. */
  lemma ToPrismaGameModeInjective(a: GameMode, b: GameMode)
    requires ToPrismaGameMode(a).Some? && ToPrismaGameMode(b).Some?
    requires ToPrismaGameMode(a) == ToPrismaGameMode(b)
    ensures a == b
  {
  }

  /** Every persisted mode is the image of exactly one application mode. */
  lemma ToPrismaGameModeSurjective(p: PrismaClient.GameMode)
    ensures exists m :: ToPrismaGameMode(m) == Some(p)
    ensures forall m :: ToPrismaGameMode(m) == Some(p) ==> m == ToGameMode(p)
  {
    assert ToPrismaGameMode(ToGameMode(p)) == Some(p);
    forall m | ToPrismaGameMode(m) == Some(p) ensures m == ToGameMode(p) {
      PlayableRoundTrip(m);
    }
  }

  /** No two modes carry the same string value (note `UnMatched`'s spelling). */
  lemma GameModeTagInjective(a: GameMode, b: GameMode)
    requires a.Tag() == b.Tag()
    ensures a == b
  {
  }

  // ---------------------------------------------------------------------------
  // Paddle input

  /** The keyboard keys that steer a paddle. */
  datatype PaddleInput = Up | Down | Left | Right {

    /** The key name each member carries at run time. */
    function Tag(): string {
      match this
      case Up => "ArrowUp"
      case Down => "ArrowDown"
      case Left => "ArrowLeft"
      case Right => "ArrowRight"
    }
  }

  /** No two inputs carry the same key name. */
  lemma PaddleInputTagInjective(a: PaddleInput, b: PaddleInput)
    requires a.Tag() == b.Tag()
    ensures a == b
  {
  }

  // ---------------------------------------------------------------------------
  // Numeric enumerations: each member's value, and the lookup of a member by value

  /** The two players of a match. */
  datatype PlayerDefinitions = Player1 | Player2 {
    function Value(): nat {
      match this
      case Player1 => 0
      case Player2 => 1
    }
  }

  function PlayerOfValue(v: int): (r: Option<PlayerDefinitions>)
    ensures r.Some? <==> 0 <= v < 2
    ensures r.Some? ==> r.value.Value() == v
  {
    if v == 0 then Some(Player1)
    else if v == 1 then Some(Player2)
    else None
  }

  /** The kinds of power-up a player can collect. */
  datatype PowerUpEffects = PaddleSlowEnemy | PaddleSpeedBuff | BallRadius | BallSmash | FreezeEnemy {
    function Value(): nat {
      match this
      case PaddleSlowEnemy => 0
      case PaddleSpeedBuff => 1
      case BallRadius => 2
      case BallSmash => 3
      case FreezeEnemy => 4
    }

    /**
     * The effects that last a number of seconds; the ball radius and the smash
     * last until the next paddle hit instead.
     */
    predicate TimeBased() {
      this == PaddleSlowEnemy || this == PaddleSpeedBuff || this == FreezeEnemy
    }
  }

  function EffectOfValue(v: int): (r: Option<PowerUpEffects>)
    ensures r.Some? <==> 0 <= v < 5
    ensures r.Some? ==> r.value.Value() == v
  {
    if v == 0 then Some(PaddleSlowEnemy)
    else if v == 1 then Some(PaddleSpeedBuff)
    else if v == 2 then Some(BallRadius)
    else if v == 3 then Some(BallSmash)
    else if v == 4 then Some(FreezeEnemy)
    else None
  }

  /** The states a ball goes through. */
  datatype BallStatus = Moving | Scored | OffField | Spawned {
    function Value(): nat {
      match this
      case Moving => 0
      case Scored => 1
      case OffField => 2
      case Spawned => 3
    }
  }

  function BallStatusOfValue(v: int): (r: Option<BallStatus>)
    ensures r.Some? <==> 0 <= v < 4
    ensures r.Some? ==> r.value.Value() == v
  {
    if v == 0 then Some(Moving)
    else if v == 1 then Some(Scored)
    else if v == 2 then Some(OffField)
    else if v == 3 then Some(Spawned)
    else None
  }

  /** Each numeric member is found again from its value: values are pairwise distinct. */
  lemma NumericEnumRoundTrips(p: PlayerDefinitions, e: PowerUpEffects, s: BallStatus)
    ensures PlayerOfValue(p.Value()) == Some(p)
    ensures EffectOfValue(e.Value()) == Some(e)
    ensures BallStatusOfValue(s.Value()) == Some(s)
  {
  }

  // ---------------------------------------------------------------------------
  // Sizes and speeds (field units)

  const MapWidth: int := 1000
  const MapHeight: int := 600

  /** Per-tick speeds; the paddle speed is fractional, so these are reals. */
  const PaddleSpeedPerTick: real := 2.5
  const BallSpeedPerTick: real := 4.0
  const PowerUpSpeedPerTick: real := 5.0
  const MaxBallSpeedPerTick: real := 15.0

  const PaddleWidth: int := 20
  const PaddleHeight: int := 100
  const BallRadiusSize: int := 20
  const PowerUpRadius: int := 15

  /** Multipliers a collected power-up applies; fractional tuning values only. */
  const BallSpeedIncrease: real := 1.5
  const BallRadiusDivision: real := 2.0
  const PaddleSpeedIncrease: real := 1.5
  const PaddleSpeedDecrease: real := 0.3
  const FreezeModifier: real := 0.0

  // ---------------------------------------------------------------------------
  // Timings (milliseconds)

  datatype PowerUpTimings = FreezeTime | SlowTime | SpeedTime | NotTimeBased | SpawnTimer {
    /** Each timing in milliseconds; the products in the declaration are exact integers. */
    function Value(): int {
      match this
      case FreezeTime => 400
      case SlowTime => 700
      case SpeedTime => 7000
      case NotTimeBased => -1
      case SpawnTimer => 5000
    }
  }

  /** The delay before a scored ball is served again. */
  const BallSpawnTime: int := 1000

  /** The timing that governs each effect, as the effect declarations describe it. */
  function EffectTiming(e: PowerUpEffects): (t: PowerUpTimings)
    ensures t == NotTimeBased <==> !e.TimeBased()
    ensures e.TimeBased() ==> t.Value() > 0
    ensures t != SpawnTimer
  {
    match e
    case PaddleSlowEnemy => SlowTime
    case PaddleSpeedBuff => SpeedTime
    case BallRadius => NotTimeBased
    case BallSmash => NotTimeBased
    case FreezeEnemy => FreezeTime
  }

  /**
   * The timing values are pairwise distinct, and the not-time-based sentinel is the
   * only negative one, so it can never be mistaken for a duration.
   */
  lemma TimingValuesDistinct(a: PowerUpTimings, b: PowerUpTimings)
    ensures a.Value() == b.Value() ==> a == b
    ensures a.Value() < 0 <==> a == NotTimeBased
  {
  }
}
