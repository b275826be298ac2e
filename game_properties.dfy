/** What a frame does to the players and the bullets, proved about the rules in GameRules. */
module GameProperties {
  import opened GameState
  import opened GameRules

  /** A visited bullet that, once advanced, lies in its target's box costs the target its
      shield or its health (never both), leaves its shooter alone and is removed; no other
      bullet goes with it, because a hit point lies within the canvas. */
  lemma VisitHit(s: State, k: nat)
    requires k < |s.bullets|
    requires InField(Get(s, Opponent(s.bullets[k].shooter)))
    requires InBox(Advanced(s.bullets[k]), Get(s, Opponent(s.bullets[k].shooter)))
    ensures var who := s.bullets[k].shooter; var t := Get(s, Opponent(who)); var r := Visit(s, k);
      Get(r, who) == Get(s, who) &&
      Get(r, Opponent(who)) ==
        (if t.shieldActive && t.shield > 0 then t.(shield := t.shield - ShieldHit)
         else t.(health := t.health - HealthHit)) &&
      r.bullets == s.bullets[..k] + s.bullets[k + 1..]
  {
  }

  /** A visited bullet that misses changes no player; it is removed when it has left the
      canvas horizontally, and otherwise stays in its place, advanced. */
  lemma VisitMiss(s: State, k: nat)
    requires k < |s.bullets|
    requires !InBox(Advanced(s.bullets[k]), Get(s, Opponent(s.bullets[k].shooter)))
    ensures var b := Advanced(s.bullets[k]); var r := Visit(s, k);
      r.p1 == s.p1 && r.p2 == s.p2 &&
      r.bullets == if OutOfField(b) then s.bullets[..k] + s.bullets[k + 1..] else s.bullets[k := b]
  {
  }

  /** No self-damage: whatever its path, a bullet leaves its own shooter unchanged. */
  lemma VisitSparesShooter(s: State, k: nat)
    requires k < |s.bullets|
    ensures Get(Visit(s, k), s.bullets[k].shooter) == Get(s, s.bullets[k].shooter)
  {
  }

  /** After a visit, every bullet past index k was already in the list past index k. */
  lemma VisitKeepsLater(s: State, k: nat)
    requires k < |s.bullets|
    ensures var r := Visit(s, k);
      forall j :: k < j < |r.bullets| ==> r.bullets[j] in s.bullets[k + 1..]
  {
  }

  /** A visit keeps both players inside the canvas with their shields and healths on their
      grids, and every bullet it keeps inside the canvas. */
  lemma VisitKeepsOk(s: State, k: nat)
    requires k < |s.bullets|
    requires PlayerOk(s.p1) && PlayerOk(s.p2) && BulletsOk(s.bullets)
    ensures var r := Visit(s, k); PlayerOk(r.p1) && PlayerOk(r.p2) && BulletsOk(r.bullets)
  {
  }

  /** The whole bullet loop keeps the same facts. */
  lemma {:induction false} PassKeepsOk(s: State, k: nat)
    requires PlayerOk(s.p1) && PlayerOk(s.p2) && BulletsOk(s.bullets)
    ensures var r := Pass(s, k); PlayerOk(r.p1) && PlayerOk(r.p2) && BulletsOk(r.bullets)
    decreases |s.bullets| - k
  {
    if k < |s.bullets| {
      VisitKeepsOk(s, k);
      PassKeepsOk(Visit(s, k), k + 1);
    }
  }

  /** A frame keeps every invariant of the game: players inside the canvas on the movement
      grid, shields in {0, 20, ..., 100}, healths on their grid, bullets inside the canvas,
      and the winner text set exactly when the game has stopped. */
  lemma StepKeepsInvariant(s: State)
    requires Invariant(s)
    ensures Invariant(StepState(s))
  {
    if s.running {
      PassKeepsOk(MovePlayers(s), 0);
    }
  }

  /** No self-damage over a whole bullet loop: when every bullet still to be visited was
      fired by `who`, the loop leaves `who` unchanged. */
  lemma {:induction false} PassSparesOwner(s: State, k: nat, who: PlayerId)
    requires forall j :: k <= j < |s.bullets| ==> s.bullets[j].shooter == who
    ensures Get(Pass(s, k), who) == Get(s, who)
    decreases |s.bullets| - k
  {
    if k < |s.bullets| {
      var r := Visit(s, k);
      VisitSparesShooter(s, k);
      VisitKeepsLater(s, k);
      forall j | k + 1 <= j < |r.bullets| ensures r.bullets[j].shooter == who {
        var i :| 0 <= i < |s.bullets[k + 1..]| && s.bullets[k + 1..][i] == r.bullets[j];
        assert s.bullets[k + 1 + i] == r.bullets[j];
      }
      PassSparesOwner(r, k + 1, who);
    }
  }

  /** The bullet after a hit one is skipped: it slides into the hit bullet's index, which
      the loop has already passed, and stays there neither advanced nor tested. */
  lemma SkipAfterHit(s: State, k: nat)
    requires k + 1 < |s.bullets|
    requires InField(Get(s, Opponent(s.bullets[k].shooter)))
    requires InBox(Advanced(s.bullets[k]), Get(s, Opponent(s.bullets[k].shooter)))
    ensures k < |Pass(s, k).bullets| && Pass(s, k).bullets[k] == s.bullets[k + 1]
  {
    VisitHit(s, k);
    var r := Visit(s, k);
    assert r.bullets[k] == s.bullets[k + 1];
    assert Pass(r, k + 1).bullets[..k + 1] == r.bullets[..k + 1];
  }

  /** Keys released after being pressed: the flag goes back to what it was, and the only
      other trace is that a shield key leaves its shield lowered. */
  lemma KeyUpUndoesKeyDown(s: State, k: Key)
    requires Tracked(k) && k !in s.held
    ensures KeyUpState(KeyDownState(s, k), k) ==
      s.(p1 := s.p1.(shieldActive := s.p1.shieldActive && k != Q),
         p2 := s.p2.(shieldActive := s.p2.shieldActive && k != M))
  {
  }

  /** The state after n frames. */
  function Run(s: State, n: nat): State
  {
    if n == 0 then s else StepState(Run(s, n - 1))
  }

  /** A lone bullet of player 2 that stays to the right of player 1's box, with no key
      held, moves `BulletSpeed` to the left per frame and changes nothing else. */
  lemma {:induction false} Flight(s: State, n: nat)
    requires s.running && s.held == {} && InField(s.p1) && s.p1.health > 0 && s.p2.health > 0
    requires |s.bullets| == 1 && s.bullets[0].shooter == P2 && s.bullets[0].speed == -BulletSpeed
    requires s.bullets[0].x <= CanvasWidth
    requires s.bullets[0].x - BulletSpeed * n > s.p1.x + PlayerWidth
    ensures Run(s, n) == s.(bullets := [s.bullets[0].(x := s.bullets[0].x - BulletSpeed * n)])
  {
    if n > 0 {
      Flight(s, n - 1);
      var t := Run(s, n - 1);
      var b := Advanced(t.bullets[0]);
      assert MovePlayers(t) == t;
      assert !InBox(b, t.p1) && !OutOfField(b);
      VisitMiss(t, 0);
      var v := Visit(t, 0);
      assert v == t.(bullets := [b]);
      assert Pass(t, 0) == Pass(v, 1) == v;
    }
  }

  /** From the start, player 2 fires once and nobody moves: the bullet is still in flight
      after 68 frames and, in frame 69, lands in player 1's box and takes 10 health. */
  lemma ShotCrossesField()
    ensures var s0 := KeyDownState(Initial(), Enter);
      Run(s0, 68) == s0.(bullets := [Bullet(144, 320, -BulletSpeed, P2)]) &&
      Run(s0, 69).p1.health == FullHealth - HealthHit && Run(s0, 69).bullets == [] &&
      Run(s0, 69).running
  {
    var s0 := KeyDownState(Initial(), Enter);
    Flight(s0, 68);
    var t := Run(s0, 68);
    assert MovePlayers(t) == t;
    VisitHit(t, 0);
  }
}
