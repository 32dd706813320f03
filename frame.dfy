/** One frame of game.js gameLoop: the update functions in their fixed order. */
module Frame {
  import opened Host
  import opened Entities
  import PlayerControl
  import Combat
  import Steering
  import Effects
  import Progression

  /** updatePlayer, updateBullets, updateZombies, updateBosses, updateParticles,
      updateGame, in that order. Over a frame the record stays consistent, score
      and kills never fall, the clock ticks once, the level rises by at most one,
      the boss threshold never falls and blood splats are never removed. */
  function Step(a: Arena, m: MathLib, w: World, c: Controls, now: int): (r: World)
    requires ValidHost(m) && Consistent(w)
    ensures Consistent(r)
    ensures w.score <= r.score && w.zombiesKilled <= r.zombiesKilled
    ensures r.gameTime == w.gameTime + 1
    ensures w.level <= r.level <= w.level + 1
    ensures w.nextBoss <= r.nextBoss
    ensures w.bloodSplats <= r.bloodSplats
  {
    var w1 := PlayerControl.UpdatePlayer(a, m, w, c, now);
    Combat.UpdateBulletsFacts(a, m, w1);
    var w2 := Combat.UpdateBullets(a, m, w1);
    Steering.UpdateZombiesFacts(a, m, w2);
    var w3 := Steering.UpdateZombies(a, m, w2);
    assert forall z <- w3.zombies :: !z.kind.Boss? by {
      forall z <- w3.zombies ensures !z.kind.Boss? {
        var k :| 0 <= k < |w3.zombies| && w3.zombies[k] == z;
        assert w2.zombies[k] in w2.zombies;
      }
    }
    Steering.UpdateBossesFacts(a, m, w3, now);
    var w4 := Steering.UpdateBosses(a, m, w3, now);
    var w5 := Effects.UpdateParticles(w4);
    Progression.UpdateGameProgress(a, m, w5);
    Progression.UpdateGame(a, m, w5)
  }
}
