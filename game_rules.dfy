/** The rules of one frame and of the key handlers, as functions on a game state.
    The class in module GameLoop performs the same changes in place; these functions
    are what its methods are proved against. */
module GameRules {
  import opened GameState

  function Max(a: int, b: int): int
  {
    if a < b then b else a
  }

  function Min(a: int, b: int): int
  {
    if a < b then a else b
  }

  /** Movement of one player: each held direction moves the box by `Speed`, but only when
      the box is not already at that edge (the guard is tested before the move). With both
      keys of an axis held, a box at the left (top) edge still moves `Speed` inward, while
      elsewhere the two moves cancel. */
  function Move(p: Player, left: bool, right: bool, up: bool, down: bool): (r: Player)
    ensures InField(p) ==> InField(r)
    ensures r == p.(x := r.x, y := r.y)
    ensures -Speed <= r.x - p.x <= Speed && -Speed <= r.y - p.y <= Speed
    ensures !left && !right ==> r.x == p.x
    ensures !up && !down ==> r.y == p.y
    ensures InField(p) && left && !right ==> r.x == Max(p.x - Speed, 0)
    ensures InField(p) && right && !left ==> r.x == Min(p.x + Speed, CanvasWidth - PlayerWidth)
    ensures InField(p) && left && right ==> r.x == if p.x == 0 then Speed else p.x
    ensures InField(p) && up && !down ==> r.y == Max(p.y - Speed, 0)
    ensures InField(p) && down && !up ==> r.y == Min(p.y + Speed, CanvasHeight - PlayerHeight)
    ensures InField(p) && up && down ==> r.y == if p.y == 0 then Speed else p.y
  {
    var afterLeft := if left && p.x > 0 then p.(x := p.x - Speed) else p;
    var afterRight :=
      if right && afterLeft.x + PlayerWidth < CanvasWidth then afterLeft.(x := afterLeft.x + Speed)
      else afterLeft;
    var afterUp := if up && afterRight.y > 0 then afterRight.(y := afterRight.y - Speed) else afterRight;
    if down && afterUp.y + PlayerHeight < CanvasHeight then afterUp.(y := afterUp.y + Speed)
    else afterUp
  }

  /** Both players move, player 1 by W/A/S/D and player 2 by the arrow keys. */
  function MovePlayers(s: State): (r: State)
    ensures r.bullets == s.bullets && r.held == s.held
    ensures r.running == s.running && r.winner == s.winner
    ensures InField(s.p1) && InField(s.p2) ==> InField(r.p1) && InField(r.p2)
  {
    s.(p1 := Move(s.p1, A in s.held, D in s.held, W in s.held, S in s.held),
       p2 := Move(s.p2, ArrowLeft in s.held, ArrowRight in s.held, ArrowUp in s.held, ArrowDown in s.held))
  }

  /** A hit: an active shield that is not empty loses `ShieldHit`; otherwise health loses
      `HealthHit`. Exactly one of the two changes. */
  function Damage(p: Player): (r: Player)
    ensures r.x == p.x && r.y == p.y && r.shieldActive == p.shieldActive
    ensures (r.shield < p.shield && r.health == p.health) != (r.health < p.health && r.shield == p.shield)
    ensures PlayerOk(p) ==> PlayerOk(r)
  {
    if p.shieldActive && p.shield > 0 then p.(shield := p.shield - ShieldHit)
    else p.(health := p.health - HealthHit)
  }

  /** The hit test: the bullet's point lies in the player's box, edges included. */
  predicate InBox(b: Bullet, p: Player)
  {
    p.x <= b.x <= p.x + PlayerWidth && p.y <= b.y <= p.y + PlayerHeight
  }

  predicate OutOfField(b: Bullet)
  {
    b.x < 0 || b.x > CanvasWidth
  }

  function Advanced(b: Bullet): Bullet
  {
    b.(x := b.x + b.speed)
  }

  /** `splice(k, 1)` on an array: the element at k goes and the later ones move down one
      place; at an index past the end nothing is removed. */
  function Splice(bs: seq<Bullet>, k: nat): (r: seq<Bullet>)
    ensures |r| == if k < |bs| then |bs| - 1 else |bs|
    ensures forall j :: 0 <= j < |r| ==> r[j] == if j < k then bs[j] else bs[j + 1]
  {
    if k < |bs| then bs[..k] + bs[k + 1..] else bs
  }

  /** One call of the per-bullet callback on the bullet at index k: advance it, test it
      against the player who did not fire it, and remove it on a hit; then, on the same
      bullet (even when it was just removed), remove the element at k if the bullet has
      left the canvas horizontally. */
  function Visit(s: State, k: nat): (r: State)
    requires k < |s.bullets|
    ensures r.held == s.held && r.running == s.running && r.winner == s.winner
    ensures k <= |r.bullets| <= |s.bullets|
    ensures r.bullets[..k] == s.bullets[..k]
  {
    var b := Advanced(s.bullets[k]);
    var s0 := s.(bullets := s.bullets[k := b]);
    var s1 :=
      if b.shooter == P1 && InBox(b, s0.p2) then s0.(p2 := Damage(s0.p2), bullets := Splice(s0.bullets, k))
      else s0;
    var s2 :=
      if b.shooter == P2 && InBox(b, s1.p1) then s1.(p1 := Damage(s1.p1), bullets := Splice(s1.bullets, k))
      else s1;
    if OutOfField(b) then s2.(bullets := Splice(s2.bullets, k)) else s2
  }

  /** The bullet loop of a frame from index k on: `forEach` visits index k, then k + 1, as
      long as the index is below the current length. When a visit removes its bullet, the
      next bullet slides into the visited index and is not visited in this frame. */
  function Pass(s: State, k: nat): (r: State)
    ensures r.held == s.held && r.running == s.running && r.winner == s.winner
    ensures |r.bullets| <= |s.bullets|
    ensures k <= |s.bullets| ==> k <= |r.bullets| && r.bullets[..k] == s.bullets[..k]
    decreases |s.bullets| - k
  {
    if k < |s.bullets| then Pass(Visit(s, k), k + 1) else s
  }

  /** The end-of-frame checks: player 1's defeat is tested first and player 2's second, so
      when both healths are gone the second write, "player 1 wins", is the one that stays. */
  function CheckWinner(s: State): (r: State)
    ensures r.p1 == s.p1 && r.p2 == s.p2 && r.bullets == s.bullets && r.held == s.held
    ensures r.running == (s.running && s.p1.health > 0 && s.p2.health > 0)
    ensures r.winner ==
      if s.p2.health <= 0 then Won(P1) else if s.p1.health <= 0 then Won(P2) else s.winner
  {
    var afterFirst := if s.p1.health <= 0 then s.(winner := Won(P2), running := false) else s;
    if s.p2.health <= 0 then afterFirst.(winner := Won(P1), running := false) else afterFirst
  }

  /** One frame: nothing at all once the game has stopped; otherwise movement, the bullet
      loop and the end-of-frame checks, in that order. */
  function StepState(s: State): (r: State)
    ensures !s.running ==> r == s
    ensures r.held == s.held
    ensures s.running ==> (r.running <==> r.p1.health > 0 && r.p2.health > 0)
    ensures s.running && !r.running ==> r.winner == if r.p2.health <= 0 then Won(P1) else Won(P2)
  {
    if !s.running then s else CheckWinner(Pass(MovePlayers(s), 0))
  }

  /** The bullet `who` fires: from the centre of its box, moving right for player 1 and
      left for player 2. */
  function NewBullet(p: Player, who: PlayerId): (b: Bullet)
    ensures b.shooter == who && InBox(b, p)
    ensures 2 * b.x == 2 * p.x + PlayerWidth && 2 * b.y == 2 * p.y + PlayerHeight
    ensures b.speed == if who == P1 then BulletSpeed else -BulletSpeed
    ensures InField(p) ==> BulletOk(b)
  {
    Bullet(p.x + PlayerWidth / 2, p.y + PlayerHeight / 2, if who == P1 then BulletSpeed else -BulletSpeed, who)
  }

  /** Firing: one bullet appended after the existing ones, or nothing once the game has
      stopped. */
  function ShootState(s: State, who: PlayerId): (r: State)
    ensures !s.running ==> r == s
    ensures s.running ==> |r.bullets| == |s.bullets| + 1 && r.bullets[..|s.bullets|] == s.bullets
    ensures s.running ==> r.bullets[|s.bullets|] == NewBullet(Get(s, who), who)
    ensures r == s.(bullets := r.bullets)
    ensures Invariant(s) ==> Invariant(r)
  {
    if !s.running then s else s.(bullets := s.bullets + [NewBullet(Get(s, who), who)])
  }

  /** A key goes down: its flag is set if the game tracks it; Q (M) raises player 1's
      (player 2's) shield when that shield is not empty; Space (Enter) makes player 1
      (player 2) fire while the game runs. */
  function KeyDownState(s: State, k: Key): (r: State)
    ensures r.held == if Tracked(k) then s.held + {k} else s.held
    ensures r.p1 == s.p1.(shieldActive := s.p1.shieldActive || (k == Q && s.p1.shield > 0))
    ensures r.p2 == s.p2.(shieldActive := s.p2.shieldActive || (k == M && s.p2.shield > 0))
    ensures r.running == s.running && r.winner == s.winner
    ensures r.bullets ==
      if s.running && k == Space then s.bullets + [NewBullet(s.p1, P1)]
      else if s.running && k == Enter then s.bullets + [NewBullet(s.p2, P2)]
      else s.bullets
    ensures Invariant(s) ==> Invariant(r)
  {
    var flagged := s.(held := if Tracked(k) then s.held + {k} else s.held);
    var shield1 :=
      if k == Q && flagged.p1.shield > 0 then flagged.(p1 := flagged.p1.(shieldActive := true)) else flagged;
    var shield2 :=
      if k == M && shield1.p2.shield > 0 then shield1.(p2 := shield1.p2.(shieldActive := true)) else shield1;
    if k == Space && shield2.running then ShootState(shield2, P1)
    else if k == Enter && shield2.running then ShootState(shield2, P2)
    else shield2
  }

  /** A key comes up: its flag is cleared if the game tracks it; Q (M) always lowers
      player 1's (player 2's) shield. */
  function KeyUpState(s: State, k: Key): (r: State)
    ensures r.held == if Tracked(k) then s.held - {k} else s.held
    ensures r.p1 == s.p1.(shieldActive := s.p1.shieldActive && k != Q)
    ensures r.p2 == s.p2.(shieldActive := s.p2.shieldActive && k != M)
    ensures r.bullets == s.bullets && r.running == s.running && r.winner == s.winner
    ensures Invariant(s) ==> Invariant(r)
  {
    var cleared := s.(held := if Tracked(k) then s.held - {k} else s.held);
    var shield1 := if k == Q then cleared.(p1 := cleared.p1.(shieldActive := false)) else cleared;
    if k == M then shield1.(p2 := shield1.p2.(shieldActive := false)) else shield1
  }
}
