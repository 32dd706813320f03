/** Spawning and level progression (game.js spawnZombie, spawnBoss, updateGame). */
module Progression {
  import opened Host
  import opened Geometry
  import opened Entities

  /** spawnZombie: one zombie for the current level enters 20 beyond a random
      canvas edge; two random values are used. */
  function SpawnZombie(a: Arena, m: MathLib, w: World): (r: World)
    requires ValidHost(m)
    ensures r == w.(zombies := r.zombies, draws := w.draws + 2)
    ensures |r.zombies| == |w.zombies| + 1 && w.zombies <= r.zombies
    ensures var z := r.zombies[|w.zombies|];
            z == NewZombie(z.x, z.y, w.level) && (z.x < 0.0 || z.x > a.width || z.y < 0.0 || z.y > a.height)
  {
    var p := SpawnPoint(Side(m.random(w.draws)), m.random(w.draws + 1), 20.0, a.width, a.height);
    w.(zombies := w.zombies + [NewZombie(p.0, p.1, w.level)], draws := w.draws + 2)
  }

  /** spawnBoss: one boss for the current level enters 30 beyond a random edge. */
  function SpawnBoss(a: Arena, m: MathLib, w: World): (r: World)
    requires ValidHost(m)
    ensures r == w.(bosses := r.bosses, draws := w.draws + 2)
    ensures |r.bosses| == |w.bosses| + 1 && w.bosses <= r.bosses
    ensures var b := r.bosses[|w.bosses|];
            b == NewBoss(b.x, b.y, w.level) && (b.x < 0.0 || b.x > a.width || b.y < 0.0 || b.y > a.height)
  {
    var p := SpawnPoint(Side(m.random(w.draws)), m.random(w.draws + 1), 30.0, a.width, a.height);
    w.(bosses := w.bosses + [NewBoss(p.0, p.1, w.level)], draws := w.draws + 2)
  }

  /** The spawn roll: a zombie appears when the frame's random value is below
      0.008 + 0.003 per level. */
  predicate ZombieRoll(u: real, level: int) {
    u < 0.008 + (level as real) * 0.003
  }

  /** updateGame on the record. The clock ticks once; a zombie may spawn; once the
      kill count reaches `nextBoss` exactly one boss spawns and the threshold moves
      up by 50 + 10 * level (the level before any rise); once the kill count reaches
      20 * level the level rises by one and the player regains 25 health, capped
      at 100. Score and kills are untouched. */
  function UpdateGame(a: Arena, m: MathLib, w: World): (r: World)
    requires ValidHost(m)
    ensures r == w.(gameTime := w.gameTime + 1, draws := r.draws, zombies := r.zombies, bosses := r.bosses,
                    nextBoss := r.nextBoss, level := r.level, player := r.player)
    ensures w.zombies <= r.zombies && |r.zombies| <= |w.zombies| + 1
    ensures ZombieRoll(m.random(w.draws), w.level) <==> |r.zombies| == |w.zombies| + 1
    ensures w.zombiesKilled >= w.nextBoss ==>
              |r.bosses| == |w.bosses| + 1 && w.bosses <= r.bosses && r.nextBoss == w.nextBoss + 50 + w.level * 10
    ensures w.zombiesKilled < w.nextBoss ==> r.bosses == w.bosses && r.nextBoss == w.nextBoss
    ensures w.zombiesKilled >= w.level * 20 ==>
              r.level == w.level + 1 && r.player == w.player.(health := Min(100.0, w.player.health + 25.0))
    ensures w.zombiesKilled < w.level * 20 ==> r.level == w.level && r.player == w.player
  {
    LevelCheck(BossCheck(a, m, SpawnRoll(a, m, w)))
  }

  /** The first part of updateGame: the clock ticks and one random value decides
      whether a zombie spawns. */
  function SpawnRoll(a: Arena, m: MathLib, w: World): (r: World)
    requires ValidHost(m)
    ensures r == w.(gameTime := w.gameTime + 1, draws := r.draws, zombies := r.zombies)
    ensures w.zombies <= r.zombies
    ensures ZombieRoll(m.random(w.draws), w.level) <==> |r.zombies| == |w.zombies| + 1
    ensures !ZombieRoll(m.random(w.draws), w.level) ==> r.zombies == w.zombies && r.draws == w.draws + 1
  {
    var w1 := w.(gameTime := w.gameTime + 1, draws := w.draws + 1);
    if ZombieRoll(m.random(w.draws), w.level) then SpawnZombie(a, m, w1) else w1
  }

  /** The boss threshold of updateGame. */
  function BossCheck(a: Arena, m: MathLib, w: World): (r: World)
    requires ValidHost(m)
    ensures r == w.(draws := r.draws, bosses := r.bosses, nextBoss := r.nextBoss)
    ensures w.zombiesKilled >= w.nextBoss ==>
              |r.bosses| == |w.bosses| + 1 && w.bosses <= r.bosses && r.nextBoss == w.nextBoss + 50 + w.level * 10
    ensures w.zombiesKilled < w.nextBoss ==> r == w
  {
    if w.zombiesKilled >= w.nextBoss
    then SpawnBoss(a, m, w).(nextBoss := w.nextBoss + 50 + w.level * 10)
    else w
  }

  /** The level-up of updateGame. */
  function LevelCheck(w: World): (r: World)
    ensures r == w.(level := r.level, player := r.player)
    ensures w.zombiesKilled >= w.level * 20 ==>
              r.level == w.level + 1 && r.player == w.player.(health := Min(100.0, w.player.health + 25.0))
    ensures w.zombiesKilled < w.level * 20 ==> r == w
  {
    if w.zombiesKilled >= w.level * 20
    then w.(level := w.level + 1, player := w.player.(health := Min(100.0, w.player.health + 25.0)))
    else w
  }

  /** The thresholds only move up: `nextBoss` strictly grows with every boss, the
      level never falls and rises by at most one per call, and the record stays
      consistent (an equipped weapon stays unlocked as the level rises). */
  lemma UpdateGameProgress(a: Arena, m: MathLib, w: World)
    requires ValidHost(m) && Consistent(w)
    ensures var r := UpdateGame(a, m, w);
            && w.nextBoss <= r.nextBoss
            && (|r.bosses| > |w.bosses| ==> w.nextBoss < r.nextBoss)
            && w.level <= r.level <= w.level + 1
            && Consistent(r)
  {
    var r := UpdateGame(a, m, w);
    forall z <- r.zombies ensures !z.kind.Boss? {
      var k :| 0 <= k < |r.zombies| && r.zombies[k] == z;
      if k < |w.zombies| {
        assert w.zombies[k] == z;
      }
    }
    forall b <- r.bosses ensures b.kind.Boss? {
      var k :| 0 <= k < |r.bosses| && r.bosses[k] == b;
      if k < |w.bosses| {
        assert w.bosses[k] == b;
      }
    }
  }

  /** The game-over test at the end of updateGame. */
  predicate GameOver(w: World) {
    w.player.health <= 0.0
  }
}
