/** The state of the two-player arena shooter: the playfield constants, the two
    players, the bullets in flight, the held keys and the running/winner flags. */
module GameState {

  // Playfield and entity sizes, in pixels.
  const CanvasWidth := 800
  const CanvasHeight := 400
  const PlayerWidth := 40
  const PlayerHeight := 40

  // Per-frame movement of a player and magnitude of a bullet's horizontal speed.
  const Speed := 5
  const BulletSpeed := 7

  // What one hit takes away from an active shield, or else from health.
  const ShieldHit := 20
  const HealthHit := 10

  // Starting health and shield of both players.
  const FullHealth := 100
  const FullShield := 100

  datatype PlayerId = P1 | P2

  /** A player's mutable attributes; width, height and colour are constants. */
  datatype Player = Player(x: int, y: int, health: int, shield: int, shieldActive: bool)

  /** A bullet: its leading point, its signed horizontal speed and who fired it. */
  datatype Bullet = Bullet(x: int, y: int, speed: int, shooter: PlayerId)

  /** The keys the game reacts to; every other key is `Other`. */
  datatype Key =
    | W | A | S | D                                  // player 1 movement
    | ArrowUp | ArrowLeft | ArrowDown | ArrowRight   // player 2 movement
    | Q | M                                          // shields
    | Space | Enter                                  // fire
    | Other

  /** What the "winner" text says: nothing yet, or who won. */
  datatype Outcome = Undecided | Won(who: PlayerId)

  datatype State = State(
    p1: Player,
    p2: Player,
    bullets: seq<Bullet>,
    held: set<Key>,
    running: bool,
    winner: Outcome)

  function Opponent(who: PlayerId): (r: PlayerId)
    ensures r != who
  {
    if who == P1 then P2 else P1
  }

  function Get(s: State, who: PlayerId): Player
  {
    if who == P1 then s.p1 else s.p2
  }

  /** The keys that have a flag in the game's `keys` table (Space and Enter have none). */
  predicate Tracked(k: Key)
  {
    k != Space && k != Enter && k != Other
  }

  /** The player's box lies inside the canvas, on the grid of the movement speed. */
  predicate InField(p: Player)
  {
    0 <= p.x <= CanvasWidth - PlayerWidth && p.x % Speed == 0 &&
    0 <= p.y <= CanvasHeight - PlayerHeight && p.y % Speed == 0
  }

  /** The shield is one of 0, 20, 40, 60, 80, 100. */
  predicate ShieldInRange(p: Player)
  {
    0 <= p.shield <= FullShield && p.shield % ShieldHit == 0
  }

  /** Health only ever falls from 100 in steps of 10. */
  predicate HealthOnGrid(p: Player)
  {
    p.health <= FullHealth && p.health % HealthHit == 0
  }

  predicate PlayerOk(p: Player)
  {
    InField(p) && ShieldInRange(p) && HealthOnGrid(p)
  }

  /** A bullet in the list lies within the canvas horizontally and moves away from its shooter. */
  predicate BulletOk(b: Bullet)
  {
    0 <= b.x <= CanvasWidth &&
    b.speed == (if b.shooter == P1 then BulletSpeed else -BulletSpeed)
  }

  predicate BulletsOk(bs: seq<Bullet>)
  {
    forall i :: 0 <= i < |bs| ==> BulletOk(bs[i])
  }

  /** The winner text is set exactly when the game has stopped, and it names a player
      whose opponent's health is gone (player 1 when both are gone). */
  predicate OutcomeOk(s: State)
  {
    (s.running <==> s.winner == Undecided) &&
    (s.running ==> s.p1.health > 0 && s.p2.health > 0) &&
    (s.winner == Won(P1) ==> s.p2.health <= 0) &&
    (s.winner == Won(P2) ==> s.p1.health <= 0 && s.p2.health > 0)
  }

  /** What every reachable state satisfies. */
  predicate Invariant(s: State)
  {
    PlayerOk(s.p1) && PlayerOk(s.p2) && BulletsOk(s.bullets) &&
    (forall k :: k in s.held ==> Tracked(k)) &&
    OutcomeOk(s)
  }

  /** The state when the page loads: players at (100, 300) and (600, 300), full health
      and shield, no bullets, no key held, the game running. */
  function Initial(): (s: State)
    ensures Invariant(s)
    ensures s.running && s.bullets == [] && s.p1.x < s.p2.x
  {
    State(
      Player(100, 300, FullHealth, FullShield, false),
      Player(600, 300, FullHealth, FullShield, false),
      [], {}, true, Undecided)
  }
}
