/** The game as the page runs it: one object whose fields the frame loop and the key
    handlers update in place. Each method is proved to do what the matching function of
    GameRules describes; the four entry points (Shoot, KeyDown, KeyUp, Step) also keep the
    game's invariant. */
module GameLoop {
  import opened GameState
  import opened GameRules
  import opened GameProperties

  class Game {
    var p1: Player
    var p2: Player
    var bullets: seq<Bullet>
    var held: set<Key>
    var running: bool
    var winner: Outcome

    /** The fields as one state value. */
    function Model(): State
      reads this
    {
      State(p1, p2, bullets, held, running, winner)
    }

    ghost predicate Valid()
      reads this
    {
      Invariant(Model())
    }

    constructor ()
      ensures Valid() && Model() == Initial()
    {
      p1 := Player(100, 300, FullHealth, FullShield, false);
      p2 := Player(600, 300, FullHealth, FullShield, false);
      bullets := [];
      held := {};
      running := true;
      winner := Undecided;
    }

    /** Fires a bullet for `who`, unless the game has stopped. */
    method Shoot(who: PlayerId)
      requires Valid()
      modifies this
      ensures Valid() && Model() == ShootState(old(Model()), who)
    {
      if !running {
        return;
      }
      var p := if who == P1 then p1 else p2;
      var speed := if who == P1 then BulletSpeed else -BulletSpeed;
      bullets := bullets + [Bullet(p.x + PlayerWidth / 2, p.y + PlayerHeight / 2, speed, who)];
    }

    /** Both key-down handlers, in the order they were registered: the key flag and the
        shield first, then firing. */
    method KeyDown(k: Key)
      requires Valid()
      modifies this
      ensures Valid() && Model() == KeyDownState(old(Model()), k)
    {
      if Tracked(k) {
        held := held + {k};
      }
      if k == Q && p1.shield > 0 {
        p1 := p1.(shieldActive := true);
      }
      if k == M && p2.shield > 0 {
        p2 := p2.(shieldActive := true);
      }
      if k == Space && running {
        Shoot(P1);
      }
      if k == Enter && running {
        Shoot(P2);
      }
    }

    /** The key-up handler: clears the key flag and lowers the matching shield. */
    method KeyUp(k: Key)
      requires Valid()
      modifies this
      ensures Valid() && Model() == KeyUpState(old(Model()), k)
    {
      if Tracked(k) {
        held := held - {k};
      }
      if k == Q {
        p1 := p1.(shieldActive := false);
      }
      if k == M {
        p2 := p2.(shieldActive := false);
      }
    }

    /** Player 1's movement in a frame (W, A, S, D): each held key moves the box unless it
        already touches that edge. */
    method MovePlayer1()
      modifies this
      ensures Model() == old(Model()).(p1 :=
        Move(old(p1), A in old(held), D in old(held), W in old(held), S in old(held)))
    {
      ghost var start := p1;
      if A in held && p1.x > 0 {
        p1 := p1.(x := p1.x - Speed);
      }
      if D in held && p1.x + PlayerWidth < CanvasWidth {
        p1 := p1.(x := p1.x + Speed);
      }
      assert p1 == Move(start, A in held, D in held, false, false);
      if W in held && p1.y > 0 {
        p1 := p1.(y := p1.y - Speed);
      }
      if S in held && p1.y + PlayerHeight < CanvasHeight {
        p1 := p1.(y := p1.y + Speed);
      }
    }

    /** Player 2's movement in a frame (the arrow keys), by the same rule. */
    method MovePlayer2()
      modifies this
      ensures Model() == old(Model()).(p2 :=
        Move(old(p2), ArrowLeft in old(held), ArrowRight in old(held), ArrowUp in old(held),
          ArrowDown in old(held)))
    {
      ghost var start := p2;
      if ArrowLeft in held && p2.x > 0 {
        p2 := p2.(x := p2.x - Speed);
      }
      if ArrowRight in held && p2.x + PlayerWidth < CanvasWidth {
        p2 := p2.(x := p2.x + Speed);
      }
      assert p2 == Move(start, ArrowLeft in held, ArrowRight in held, false, false);
      if ArrowUp in held && p2.y > 0 {
        p2 := p2.(y := p2.y - Speed);
      }
      if ArrowDown in held && p2.y + PlayerHeight < CanvasHeight {
        p2 := p2.(y := p2.y + Speed);
      }
    }

    /** The per-bullet callback on the bullet at `index`: advance it, test it against the
        player who did not fire it, and splice out the element at `index` on a hit and
        again when the bullet has left the canvas. */
    method VisitBullet(index: nat)
      requires index < |bullets|
      modifies this
      ensures Model() == Visit(old(Model()), index)
    {
      ghost var s := Model();
      var b := bullets[index];
      b := b.(x := b.x + b.speed);
      bullets := bullets[index := b];
      ghost var s0 := Model();
      assert b == Advanced(s.bullets[index]) && s0 == s.(bullets := s.bullets[index := b]);
      if b.shooter == P1 && InBox(b, p2) {
        if p2.shieldActive && p2.shield > 0 {
          p2 := p2.(shield := p2.shield - ShieldHit);
        } else {
          p2 := p2.(health := p2.health - HealthHit);
        }
        bullets := Splice(bullets, index);
      }
      ghost var s1 := Model();
      assert s1 == if b.shooter == P1 && InBox(b, s0.p2)
        then s0.(p2 := Damage(s0.p2), bullets := Splice(s0.bullets, index)) else s0;
      if b.shooter == P2 && InBox(b, p1) {
        if p1.shieldActive && p1.shield > 0 {
          p1 := p1.(shield := p1.shield - ShieldHit);
        } else {
          p1 := p1.(health := p1.health - HealthHit);
        }
        bullets := Splice(bullets, index);
      }
      assert Model() == if b.shooter == P2 && InBox(b, s1.p1)
        then s1.(p1 := Damage(s1.p1), bullets := Splice(s1.bullets, index)) else s1;
      if b.x < 0 || b.x > CanvasWidth {
        bullets := Splice(bullets, index);
      }
    }

    /** One frame: movement, the bullet loop with removal during the walk, and the
        end-of-game checks. Does nothing once the game has stopped. */
    method Step()
      requires Valid()
      modifies this
      ensures Valid() && Model() == StepState(old(Model()))
    {
      if !running {
        return;
      }
      MovePlayer1();
      MovePlayer2();
      ghost var moved := Model();
      assert moved == MovePlayers(old(Model()));

      // The index advances after every visit, also after the visited bullet was removed.
      var i := 0;
      while i < |bullets|
        invariant Pass(Model(), i) == Pass(moved, 0)
        decreases |bullets| - i
      {
        VisitBullet(i);
        i := i + 1;
      }

      if p1.health <= 0 {
        winner := Won(P2);
        running := false;
      }
      if p2.health <= 0 {
        winner := Won(P1);
        running := false;
      }
      StepKeepsInvariant(old(Model()));
    }
  }
}
