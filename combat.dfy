/** Bullet resolution (game.js updateBullets): every bullet moves, then the first
    of four checks that matches decides its fate. */
module Combat {
  import opened Host
  import opened Geometry
  import opened Entities
  import opened Sequences
  import Effects

  function Advance(b: Bullet): (a: Bullet)
    ensures a == b.(x := a.x, y := a.y)
  {
    b.(x := b.x + b.vx, y := b.y + b.vy)
  }

  function AdvanceAll(bs: seq<Bullet>): (r: seq<Bullet>)
    ensures |r| == |bs| && forall k :: 0 <= k < |bs| ==> r[k] == Advance(bs[k])
  {
    seq(|bs|, k requires 0 <= k < |bs| => Advance(bs[k]))
  }

  predicate OutOfBounds(a: Arena, b: Bullet) {
    b.x < 0.0 || b.x > a.width || b.y < 0.0 || b.y > a.height
  }

  /** The bullet is strictly inside pillar `q`. */
  predicate InPillar(q: Pillar, b: Bullet) {
    Within(b.x - q.x, b.y - q.y, q.radius)
  }

  predicate Stopped(ps: seq<Pillar>, b: Bullet) {
    exists k :: 0 <= k < |ps| && InPillar(ps[k], b)
  }

  /** The bullet is strictly closer to the creature's centre than its size. */
  predicate Touches(c: Creature, b: Bullet) {
    Within(b.x - c.x, b.y - c.y, c.size)
  }

  /** The index the reverse scan of game.js stops at: the highest-index creature
      the bullet touches, or -1 when it touches none. */
  function LastHit(cs: seq<Creature>, b: Bullet): (r: int)
    ensures -1 <= r < |cs|
    ensures r >= 0 ==> Touches(cs[r], b)
    ensures forall k :: r < k < |cs| ==> !Touches(cs[k], b)
  {
    if cs == [] then -1
    else if Touches(cs[|cs| - 1], b) then |cs| - 1
    else LastHit(cs[..|cs| - 1], b)
  }

  /** Splash damage an explosive bullet deals to a zombie within 50 of it. */
  function SplashOn(b: Bullet, c: Creature): (d: real)
    ensures d == 0.0 || (b.explosive && d == b.damage * 0.5)
    ensures b.explosive && Within(b.x - c.x, b.y - c.y, 50.0) ==> d == b.damage * 0.5
    ensures !(b.explosive && Within(b.x - c.x, b.y - c.y, 50.0)) ==> d == 0.0
  {
    if b.explosive && Within(b.x - c.x, b.y - c.y, 50.0) then b.damage * 0.5 else 0.0
  }

  /** The creature after losing `amount` health. */
  function Hurt(c: Creature, amount: real): Creature {
    c.(health := c.health - amount)
  }

  /** Every zombie within 50 of an explosive bullet loses half its damage. */
  function Splash(zs: seq<Creature>, b: Bullet): (r: seq<Creature>)
    ensures |r| == |zs|
    ensures forall k :: 0 <= k < |zs| ==> r[k] == Hurt(zs[k], SplashOn(b, zs[k]))
  {
    seq(|zs|, k requires 0 <= k < |zs| =>
      if b.explosive && Within(b.x - zs[k].x, b.y - zs[k].y, 50.0) then Hurt(zs[k], b.damage * 0.5) else zs[k])
  }

  /** What zombie `i` and the others look like after the hit: zombie `i` takes the
      bullet's damage, and, for an explosive bullet, every zombie within 50
      (zombie `i` included) takes the splash as well. */
  function Damaged(zs: seq<Creature>, i: int, b: Bullet): (r: seq<Creature>)
    requires 0 <= i < |zs|
    ensures |r| == |zs|
    ensures forall k :: 0 <= k < |zs| && k != i ==> r[k] == Splash(zs, b)[k]
    ensures r[i] == zs[i].(health := zs[i].health - SplashOn(b, zs[i]) - b.damage)
  {
    seq(|zs|, k requires 0 <= k < |zs| =>
      Hurt(zs[k], SplashOn(b, zs[k]) + (if k == i then b.damage else 0.0)))
  }

  /** A bullet striking zombie `i`: damage and splash, an explosion for an explosive
      bullet, a blood splash at the zombie; then zombie `i`, and only zombie `i`, is
      removed with 10 points and one kill if its health has reached 0. */
  function HitZombie(w: World, i: int, b: Bullet, m: MathLib): (r: World)
    requires 0 <= i < |w.zombies|
    ensures r == w.(zombies := r.zombies, particles := r.particles, bloodSplats := r.bloodSplats,
                    score := r.score, zombiesKilled := r.zombiesKilled, draws := r.draws)
    ensures var left := Damaged(w.zombies, i, b)[i].health;
            if left <= 0.0
            then r.zombies == Remove(Damaged(w.zombies, i, b), i) && r.score == w.score + 10 && r.zombiesKilled == w.zombiesKilled + 1
            else r.zombies == Damaged(w.zombies, i, b) && r.score == w.score && r.zombiesKilled == w.zombiesKilled
    ensures |r.bloodSplats| == |w.bloodSplats| + 1 && w.bloodSplats <= r.bloodSplats
    ensures |r.particles| == |w.particles| + (if b.explosive then 15 else 5) && w.particles <= r.particles
    ensures forall k :: |w.particles| <= k < |r.particles| ==> r.particles[k].life > 0
  {
    var z := w.zombies[i];
    var zs1 := w.zombies[i := Hurt(z, b.damage)];
    var w1 := if b.explosive then Effects.Explode(w.(zombies := Splash(zs1, b)), b.x, b.y, m) else w.(zombies := zs1);
    assert w1.zombies == Damaged(w.zombies, i, b);
    var struck := w1.zombies[i];
    var w2 := Effects.BloodSplash(w1, struck.x, struck.y, m);
    assert w2.particles[..|w.particles|] == w.particles by {
      assert w2.particles[..|w1.particles|] == w1.particles;
    }
    if struck.health <= 0.0 then
      w2.(zombies := Remove(w2.zombies, i), score := w2.score + 10, zombiesKilled := w2.zombiesKilled + 1)
    else w2
  }

  /** A bullet striking boss `j`: the boss alone takes the damage (no splash), an
      explosion for an explosive bullet, a blood splash at the boss; the boss is
      removed with 100 points and ten kills if its health has reached 0. */
  function HitBoss(w: World, j: int, b: Bullet, m: MathLib): (r: World)
    requires 0 <= j < |w.bosses|
    ensures r == w.(bosses := r.bosses, particles := r.particles, bloodSplats := r.bloodSplats,
                    score := r.score, zombiesKilled := r.zombiesKilled, draws := r.draws)
    ensures var hit := Hurt(w.bosses[j], b.damage);
            if hit.health <= 0.0
            then r.bosses == Remove(w.bosses, j) && r.score == w.score + 100 && r.zombiesKilled == w.zombiesKilled + 10
            else r.bosses == w.bosses[j := hit] && r.score == w.score && r.zombiesKilled == w.zombiesKilled
    ensures |r.bloodSplats| == |w.bloodSplats| + 1 && w.bloodSplats <= r.bloodSplats
    ensures |r.particles| == |w.particles| + (if b.explosive then 15 else 5) && w.particles <= r.particles
    ensures forall k :: |w.particles| <= k < |r.particles| ==> r.particles[k].life > 0
  {
    var hit := Hurt(w.bosses[j], b.damage);
    var w0 := w.(bosses := w.bosses[j := hit]);
    var w1 := if b.explosive then Effects.Explode(w0, b.x, b.y, m) else w0;
    var w2 := Effects.BloodSplash(w1, hit.x, hit.y, m);
    assert w2.particles[..|w.particles|] == w.particles by {
      assert w2.particles[..|w1.particles|] == w1.particles;
    }
    if hit.health <= 0.0 then
      w2.(bosses := Remove(w2.bosses, j), score := w2.score + 100, zombiesKilled := w2.zombiesKilled + 10)
    else w2
  }

  /** The filter callback of updateBullets for one bullet: whether it survives the
      frame, and the record afterwards. A bullet leaving the canvas or entering a
      pillar is dropped and changes nothing; a bullet touching a zombie hits the
      highest-index one; otherwise one touching a boss hits the highest-index
      boss; a bullet that survives changed nothing. */
  function ResolveBullet(a: Arena, m: MathLib, w: World, b0: Bullet): (r: (bool, World))
    ensures var b := Advance(b0);
            (OutOfBounds(a, b) || Stopped(a.pillars, b)) ==> r == (false, w)
    ensures var b := Advance(b0);
            !OutOfBounds(a, b) && !Stopped(a.pillars, b) && LastHit(w.zombies, b) >= 0 ==>
              r == (false, HitZombie(w, LastHit(w.zombies, b), b, m))
    ensures var b := Advance(b0);
            !OutOfBounds(a, b) && !Stopped(a.pillars, b) && LastHit(w.zombies, b) < 0 && LastHit(w.bosses, b) >= 0 ==>
              r == (false, HitBoss(w, LastHit(w.bosses, b), b, m))
    ensures var b := Advance(b0);
            !OutOfBounds(a, b) && !Stopped(a.pillars, b) && LastHit(w.zombies, b) < 0 && LastHit(w.bosses, b) < 0 ==>
              r == (true, w)
  {
    var b := Advance(b0);
    if OutOfBounds(a, b) || Stopped(a.pillars, b) then (false, w)
    else Strike(m, w, b)
  }

  /** The two reverse scans of updateBullets for a bullet in open ground: the
      highest-index zombie it touches takes the hit, failing that the
      highest-index boss; a bullet that touches nothing flies on. */
  function Strike(m: MathLib, w: World, b: Bullet): (r: (bool, World))
    ensures r.0 <==> LastHit(w.zombies, b) < 0 && LastHit(w.bosses, b) < 0
    ensures r.0 ==> r.1 == w
    ensures LastHit(w.zombies, b) >= 0 ==> r.1 == HitZombie(w, LastHit(w.zombies, b), b, m)
    ensures LastHit(w.zombies, b) < 0 && LastHit(w.bosses, b) >= 0 ==> r.1 == HitBoss(w, LastHit(w.bosses, b), b, m)
  {
    var i := LastHit(w.zombies, b);
    if i >= 0 then (false, HitZombie(w, i, b, m))
    else
      var j := LastHit(w.bosses, b);
      if j >= 0 then (false, HitBoss(w, j, b, m))
      else (true, w)
  }

  /** The filter over the bullets `bs`, in order: the surviving (moved) bullets and
      the record after all of them were resolved. */
  function ResolveAll(a: Arena, m: MathLib, w: World, bs: seq<Bullet>): (r: (seq<Bullet>, World))
    ensures |r.0| <= |bs|
  {
    if bs == [] then ([], w)
    else
      var before := ResolveAll(a, m, w, bs[..|bs| - 1]);
      var b := bs[|bs| - 1];
      var step := ResolveBullet(a, m, before.1, b);
      (if step.0 then before.0 + [Advance(b)] else before.0, step.1)
  }

  /** Resolving one more bullet extends the kept list and the record by that
      bullet's own resolution. */
  lemma ResolveAllStep(a: Arena, m: MathLib, w: World, bs: seq<Bullet>, n: int)
    requires 0 <= n < |bs|
    ensures var before := ResolveAll(a, m, w, bs[..n]);
            var step := ResolveBullet(a, m, before.1, bs[n]);
            && ResolveAll(a, m, w, bs[..n + 1]).0 == (if step.0 then before.0 + [Advance(bs[n])] else before.0)
            && ResolveAll(a, m, w, bs[..n + 1]).1 == step.1
  {
    assert bs[..n + 1][..n] == bs[..n];
  }

  /** updateBullets on the record. */
  function UpdateBullets(a: Arena, m: MathLib, w: World): (r: World)
    ensures |r.bullets| <= |w.bullets|
  {
    var res := ResolveAll(a, m, w, w.bullets);
    res.1.(bullets := res.0)
  }

  /** Appending particles that have life keeps every particle alive. */
  lemma AppendedLive(ps: seq<Particle>, qs: seq<Particle>)
    requires forall p <- ps :: p.life > 0
    requires ps <= qs && forall k :: |ps| <= k < |qs| ==> qs[k].life > 0
    ensures forall q <- qs :: q.life > 0
  {
    forall q <- qs ensures q.life > 0 {
      var k :| 0 <= k < |qs| && qs[k] == q;
      if k < |ps| {
        assert ps[k] == q;
      }
    }
  }

  /** Damage never turns a zombie into a boss. */
  lemma DamagedKeepsKinds(zs: seq<Creature>, i: int, b: Bullet)
    requires 0 <= i < |zs| && forall z <- zs :: !z.kind.Boss?
    ensures forall z <- Damaged(zs, i, b) :: !z.kind.Boss?
  {
    var d := Damaged(zs, i, b);
    forall z <- d ensures !z.kind.Boss? {
      var k :| 0 <= k < |d| && d[k] == z;
      assert zs[k] in zs;
    }
  }

  lemma HitZombieConsistent(w: World, i: int, b: Bullet, m: MathLib)
    requires Consistent(w) && 0 <= i < |w.zombies|
    ensures Consistent(HitZombie(w, i, b, m))
  {
    var r := HitZombie(w, i, b, m);
    var d := Damaged(w.zombies, i, b);
    DamagedKeepsKinds(w.zombies, i, b);
    if d[i].health <= 0.0 {
      RemoveKeepsMembers(d, i);
    }
    AppendedLive(w.particles, r.particles);
  }

  lemma HitBossConsistent(w: World, j: int, b: Bullet, m: MathLib)
    requires Consistent(w) && 0 <= j < |w.bosses|
    ensures Consistent(HitBoss(w, j, b, m))
  {
    var r := HitBoss(w, j, b, m);
    var hit := Hurt(w.bosses[j], b.damage);
    assert w.bosses[j] in w.bosses;
    assert forall c <- w.bosses[j := hit] :: c.kind.Boss?;
    assert forall c <- r.bosses :: c in w.bosses[j := hit];
    AppendedLive(w.particles, r.particles);
  }

  /** Only the struck zombie can die from a hit: every other zombie, splashed or
      not, stays in the list even when its health has dropped to 0 or below. */
  lemma HitZombieSparesBystanders(w: World, i: int, b: Bullet, m: MathLib, k: int)
    requires 0 <= i < |w.zombies| && 0 <= k < |w.zombies| && k != i
    ensures Damaged(w.zombies, i, b)[k] in HitZombie(w, i, b, m).zombies
  {
    var d := Damaged(w.zombies, i, b);
    var r := HitZombie(w, i, b, m);
    if d[i].health <= 0.0 {
      if k < i {
        assert r.zombies[k] == d[k];
      } else {
        assert r.zombies[k - 1] == d[k];
      }
    } else {
      assert r.zombies[k] == d[k];
    }
  }

  /** What one bullet does to the bookkeeping: score and kills never fall, every
      kill is worth 10 points, bosses are never added, splats are only appended,
      and the record stays consistent. */
  lemma ResolveBulletBookkeeping(a: Arena, m: MathLib, w: World, b0: Bullet)
    requires Consistent(w)
    ensures var r := ResolveBullet(a, m, w, b0).1;
            && r == w.(zombies := r.zombies, bosses := r.bosses, particles := r.particles,
                       bloodSplats := r.bloodSplats, score := r.score, zombiesKilled := r.zombiesKilled, draws := r.draws)
            && w.score <= r.score && w.zombiesKilled <= r.zombiesKilled
            && |r.bosses| <= |w.bosses|
            && w.bloodSplats <= r.bloodSplats
            && Consistent(r)
  {
    var b := Advance(b0);
    if !OutOfBounds(a, b) && !Stopped(a.pillars, b) {
      var i := LastHit(w.zombies, b);
      if i >= 0 {
        HitZombieConsistent(w, i, b, m);
      } else if LastHit(w.bosses, b) >= 0 {
        HitBossConsistent(w, LastHit(w.bosses, b), b, m);
      }
    }
  }

  /** updateBullets keeps the surviving bullets in their original order, never
      lowers the score or the kill count, never adds a boss and keeps the record
      consistent (in particular 10 points per kill). */
  lemma {:induction false} ResolveAllBookkeeping(a: Arena, m: MathLib, w: World, bs: seq<Bullet>)
    requires Consistent(w)
    ensures var r := ResolveAll(a, m, w, bs);
            && Subseq(r.0, AdvanceAll(bs))
            && r.1 == w.(zombies := r.1.zombies, bosses := r.1.bosses, particles := r.1.particles,
                         bloodSplats := r.1.bloodSplats, score := r.1.score, zombiesKilled := r.1.zombiesKilled, draws := r.1.draws)
            && w.score <= r.1.score && w.zombiesKilled <= r.1.zombiesKilled
            && |r.1.bosses| <= |w.bosses|
            && w.bloodSplats <= r.1.bloodSplats
            && Consistent(r.1)
  {
    if bs != [] {
      var init := bs[..|bs| - 1];
      var b := bs[|bs| - 1];
      ResolveAllBookkeeping(a, m, w, init);
      var before := ResolveAll(a, m, w, init);
      ResolveBulletBookkeeping(a, m, before.1, b);
      var step := ResolveBullet(a, m, before.1, b);
      assert AdvanceAll(bs) == AdvanceAll(init) + [Advance(b)];
      SubseqExtend(before.0, AdvanceAll(init), Advance(b), step.0);
    }
  }

  /** updateBullets as a whole: only the bullets, zombies, bosses, effects, score,
      kills and draws change; survivors are the moved bullets in their original
      order and never more than there were. */
  lemma UpdateBulletsFacts(a: Arena, m: MathLib, w: World)
    requires Consistent(w)
    ensures var r := UpdateBullets(a, m, w);
            && Subseq(r.bullets, AdvanceAll(w.bullets))
            && |r.bullets| <= |w.bullets|
            && r.player == w.player && r.level == w.level && r.currentWeapon == w.currentWeapon
            && r.lastShot == w.lastShot && r.gameTime == w.gameTime && r.nextBoss == w.nextBoss
            && w.score <= r.score && w.zombiesKilled <= r.zombiesKilled
            && w.bloodSplats <= r.bloodSplats
            && Consistent(r)
  {
    ResolveAllBookkeeping(a, m, w, w.bullets);
    var res := ResolveAll(a, m, w, w.bullets);
    SubseqLength(res.0, AdvanceAll(w.bullets));
  }
}
