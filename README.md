# Two-player arena shooter: the frame step, in Dafny

This project models the simulation core of a browser game for two players. Each player
moves a 40×40 box on an 800×400 canvas, fires bullets at the other and can raise a shield
that absorbs hits before health is touched. The model covers the state the script keeps:
- the two player objects;
- the bullet list;
- the `keys` flags;
- the `gameRunning` flag;
- the winner message.

It also covers everything that changes that state:
- the frame loop (`gameLoop`);
- `shoot`;
- the key-down and key-up handlers.

Layout:

- `game_state.dfy` (module `GameState`) holds the constants (canvas 800×400, players
  40×40, speed 5, bullet speed 7, shield hit 20, health hit 10) and the datatypes `Player`,
  `Bullet`, `Key`, `Outcome` and `State`. It also holds `Invariant`, the property every
  reachable state has.
- `game_rules.dfy` (module `GameRules`) gives each rule as a function on a `State`:
  movement, damage, `splice`, one call of the per-bullet callback (`Visit`), the whole
  bullet loop (`Pass`), the end-of-game checks, a whole frame (`StepState`), firing and the
  key handlers.
- `game_properties.dfy` (module `GameProperties`) holds the lemmas about those functions:
  - the damage rule;
  - no self-damage;
  - out-of-bounds removal;
  - the skipped bullet after a removal;
  - invariant preservation;
  - a shot followed across the field.
- `game.dfy` (module `GameLoop`) is the class `Game`. Its fields are the script's globals,
  and its methods update them in place. `Shoot`, `KeyDown`, `KeyUp` and `Step` are proved
  equal to their rule functions and to keep `Invariant`. The helpers `MovePlayer1`,
  `MovePlayer2` and `VisitBullet` are proved equal to `Move` and `Visit`.

Two behaviours of the script are kept as written:

- The bullet loop is a `forEach` that calls `splice(index, 1)` on the list it is walking.
  After a removal the next bullet slides into the current index, but the walk moves on to
  the next index. So that bullet is neither advanced nor tested in that frame. `Pass` and
  `Game.Step` walk the list by index in the same way, and `SkipAfterHit` proves the skip.
  The out-of-bounds test also runs on a bullet that was just removed by a hit, and would
  then splice the next bullet. `VisitHit` proves that this second splice never happens,
  because a hit point lies inside the target's box and so inside the canvas.
- Both defeat checks run in order, so when both healths reach 0 in one frame the second
  write wins and player 1 is recorded as the winner (`CheckWinner`).

Four more behaviours of the code that a reader might not expect:
- `shieldActive` is set only in the key handlers, never re-armed by the frame. So it can
  stay `true` after the shield reaches 0. The hit test's own `shield > 0` guard makes this
  harmless.
- With both keys of an axis held, the two guarded moves run one after the other. A box at
  the left (top) edge then moves 5 px inward, because the first move is refused and the
  second is not. At the right (bottom) edge, and anywhere else, the two moves cancel
  (`Move`).
- The shield never goes below 0. It is lowered only while it is positive, starting from 100
  in steps of 20 (`Damage`, `StepKeepsInvariant`).
- From the start, player 2's first shot lands in frame 69. The bullet starts at player 2's
  centre (x = 620) and hits when it reaches player 1's right edge (x = 140). That is 480 px,
  so it takes ceil(480 / 7) = 69 frames (`ShotCrossesField`).

## Model

| member | source | states |
|---|---|---|
| `GameState.Initial` | game.js:8-22 | The starting state: players at (100, 300) and (600, 300) with full health and shield, no bullets, no key held, game running. It satisfies `Invariant`. |
| `GameRules.Move` | game.js:64-67 | For a player in the field on the 5-pixel grid, each axis is given in closed form. With only left held, x becomes max(x − 5, 0). With only right held, x becomes min(x + 5, 760). With both held, x becomes 5 at x = 0 and stays put elsewhere. The same holds for y with up, down and 360. With no key held on an axis it does not move. The player stays in the field (0 ≤ x ≤ 760, 0 ≤ y ≤ 360), and only the position changes. |
| `GameRules.MovePlayers` | game.js:64-72 | Both players move, with W/A/S/D and with the arrows. Bullets, keys and flags are untouched, and both players stay in the field. |
| `GameRules.Damage` | game.js:91-95 | A hit lowers either the shield or health, never both. The shield of a player keeps to {0, 20, …, 100} and health keeps to its grid of 10. |
| `GameRules.Splice` | game.js:96 | `splice(k, 1)` removes exactly the element at k and shifts the later ones down by one. An index past the end removes nothing. |
| `GameRules.Visit` | game.js:83-116 | One callback call never touches the keys or flags, never lengthens the list, and leaves the bullets before the visited index as they were. |
| `GameRules.Pass` | game.js:82-121 | The whole bullet loop never touches the keys or flags, never lengthens the list, and leaves the bullets before its starting index as they were. |
| `GameRules.CheckWinner` | game.js:142-149 | The game stops exactly when some health is ≤ 0. The winner is player 1 whenever player 2's health is gone (also when both are), otherwise player 2 when player 1's is gone. |
| `GameRules.StepState` | game.js:58-152 | A frame of a stopped game changes nothing. In a running game, the game stops exactly when some health ended ≤ 0, and the recorded winner follows the tie-break above. |
| `GameRules.NewBullet` | game.js:45-54 | A new bullet starts at the centre of its shooter's box and inside that box. Its speed is +7 for player 1 and −7 for player 2, and its shooter is the firing player. |
| `GameRules.ShootState` | game.js:42-55 | While the game runs, firing appends exactly one bullet, `NewBullet` of the firing player, after the unchanged existing ones. Once stopped it is a no-op. Nothing else changes, and `Invariant` is kept. |
| `GameRules.KeyDownState` | game.js:25-31 | A key-down sets the key's flag if the key is tracked. Q (M) raises player 1's (2's) shield only when that shield is > 0, and any other key leaves `shieldActive` as it was. Space (Enter) fires for player 1 (2) while running. `Invariant` is kept. |
| `GameRules.KeyUpState` | game.js:33-39 | A key-up clears the key's flag. Q (M) always lowers player 1's (2's) shield, and other keys leave `shieldActive` unchanged. `Invariant` is kept. |
| `GameProperties.VisitHit` | game.js:86-111 | On a hit on the opponent with an active, positive shield, the shield drops by exactly 20 and health is unchanged. Otherwise health drops by exactly 10 and the shield is unchanged. The shooter is unchanged, and exactly that bullet is removed. |
| `GameProperties.VisitMiss` | game.js:113-116 | A visited bullet that misses changes no player. It is removed when its advanced x is < 0 or > 800. Otherwise it stays at its index, advanced. |
| `GameProperties.VisitSparesShooter` | game.js:86-104 | A bullet is only tested against the player who did not fire it, so it never changes its shooter. |
| `GameProperties.VisitKeepsLater` | game.js:96-116 | After a callback call, every bullet past the visited index was already in the list past that index. Removal only drops bullets and never brings any back. |
| `GameProperties.VisitKeepsOk` | game.js:83-116 | One callback call keeps both players in the field with shield and health on their grids, and leaves only bullets with 0 ≤ x ≤ 800 in the list. |
| `GameProperties.PassKeepsOk` | game.js:82-121 | The same holds after the whole bullet loop. |
| `GameProperties.StepKeepsInvariant` | game.js:58-149 | A frame keeps `Invariant`: players on the grid inside the canvas, shields in {0, …, 100}, no out-of-canvas bullet, and the winner set exactly when the game has stopped. |
| `GameProperties.PassSparesOwner` | game.js:82-111 | When every bullet still to be visited belongs to one player, the bullet loop leaves that player unchanged. |
| `GameProperties.SkipAfterHit` | game.js:82-116 | When a bullet hits, the bullet after it slides into its index and is still there, neither advanced nor tested, when the loop ends. |
| `GameProperties.KeyUpUndoesKeyDown` | game.js:25-39 | Pressing and then releasing a tracked key that was not held gives back the same state, except that a shield key leaves its shield lowered. |
| `GameProperties.Flight` | game.js:82-116 | With no key held, a lone bullet of player 2 that stays right of player 1's box moves 7 pixels left per frame and changes nothing else. |
| `GameProperties.ShotCrossesField` | game.js:42-116 | From the start, player 2 fires once. After 68 frames the bullet is at x = 144. In frame 69 it hits player 1, whose health drops from 100 to 90, and the list is empty again. |
| `GameLoop.Game.constructor` | game.js:8-22 | The object starts in the initial state. |
| `GameLoop.Game.Shoot` | game.js:42-55 | `shoot` changes the fields exactly as `ShootState` says and keeps `Invariant`. |
| `GameLoop.Game.KeyDown` | game.js:25-31 | The two key-down listeners run in registration order: flags and shield first (lines 25-31), then firing (lines 155-158). Together they change the fields exactly as `KeyDownState` says and keep `Invariant`. |
| `GameLoop.Game.KeyUp` | game.js:33-39 | The key-up listener changes the fields exactly as `KeyUpState` says and keeps `Invariant`. |
| `GameLoop.Game.MovePlayer1` | game.js:64-67 | Player 1's four guarded moves, in place, equal `Move` on the W/A/S/D flags. |
| `GameLoop.Game.MovePlayer2` | game.js:69-72 | Player 2's four guarded moves, in place, equal `Move` on the arrow flags. |
| `GameLoop.Game.VisitBullet` | game.js:83-116 | The callback body, in place, equals `Visit` at that index. |
| `GameLoop.Game.Step` | game.js:58-152 | `gameLoop` is an index loop over the mutable list that advances the index after every visit, removal or not. It changes the fields exactly as `StepState` says and keeps `Invariant`. |

## Left out

- Canvas drawing (clearing, rectangles, the shield outline, the health and shield text,
  fonts and colours) is presentation only. So are the player and bullet colours and the
  bullet's 10×5 size, which only the drawing uses.
- The page's DOM access (finding the canvas and the winner element, registering the
  listeners) is replaced by method calls on `Game`, and the winner text by the `winner`
  field (`Outcome`).
- The `requestAnimationFrame` scheduling and the first `gameLoop()` call are runtime
  plumbing. A frame is one call of `Game.Step`.
- The browser's key auto-repeat, which decides how often a held Space or Enter fires, is
  environment behaviour. Each key-down is one explicit call of `Game.KeyDown`.
- Key names are an enumeration. A key the script does not know is `Other`, and that
  includes a key in another case: "W", "Q" and the like have no flag in the script. So a
  `w` pressed and then released with Shift held is `KeyDown(W)` followed by `KeyUp(Other)`,
  which leaves `W` held and player 1 moving, as in the script.
- JavaScript numbers are floating point. Every value the script computes here is an
  integer (sums of 5, 7, 10, 20 and 40 / 2), so the model uses `int`.
- The players are record values held in the object's fields rather than separate objects.
  No player is ever changed through any name except `player1` and `player2`. The only
  stored references to them, the bullets' `shooter` fields, are only compared for identity,
  so a bullet's `shooter` becomes a `PlayerId`.
