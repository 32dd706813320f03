/** The running game of game.js: the `game` record as an object whose update
    methods change it in place, one frame at a time. */
module ZombieHunter {
  import opened Host
  import opened Geometry
  import opened Entities
  import opened Sequences
  import PlayerControl
  import Combat
  import Steering
  import Effects
  import Progression
  import Frame

  class Game {
    const arena: Arena
    const math: MathLib

    var player: Player
    var bullets: seq<Bullet>
    var zombies: seq<Creature>
    var bosses: seq<Creature>
    var particles: seq<Particle>
    var bloodSplats: seq<Splat>
    var level: int
    var score: int
    var zombiesKilled: int
    var currentWeapon: int
    var lastShot: int
    var gameTime: int
    var nextBoss: int
    var draws: nat

    /** The record this object holds. */
    function State(): World
      reads this
    {
      World(player, bullets, zombies, bosses, particles, bloodSplats, level, score, zombiesKilled,
            currentWeapon, lastShot, gameTime, nextBoss, draws)
    }

    ghost predicate Valid()
      reads this
    {
      Consistent(State()) && ValidHost(math)
    }

    /** The game as the page loads it: the initial record on a `width` by `height`
        canvas with the six pillars of game.js. */
    constructor (width: real, height: real, math: MathLib)
      requires ValidHost(math)
      ensures Valid()
      ensures State() == Initial()
      ensures arena == Arena(width, height, Pillars) && this.math == math
    {
      this.arena := Arena(width, height, Pillars);
      this.math := math;
      player := Player(400.0, 300.0, 100.0, 0.0, 3.0);
      bullets, zombies, bosses, particles, bloodSplats := [], [], [], [], [];
      level, score, zombiesKilled, currentWeapon := 1, 0, 0, 0;
      lastShot, gameTime, nextBoss, draws := 0, 0, 50, 0;
    }

    /** The number-key handler: equip weapon `num - 1` if it exists and is unlocked. */
    method SelectWeapon(num: Parsed)
      requires Valid()
      modifies this`currentWeapon
      ensures Valid()
      ensures State() == old(State()).(currentWeapon := PlayerControl.Switch(num, level, old(currentWeapon)))
    {
      match num
      case Int(n) =>
        if n >= 1 && n <= 6 && Weapons[n - 1].unlockLevel <= level {
          currentWeapon := n - 1;
        }
      case NaN =>
    }

    /** Math.random(): the next value of the session's stream. */
    method Random() returns (u: real)
      modifies this`draws
      ensures u == math.random(old(draws))
      ensures draws == old(draws) + 1
    {
      u := math.random(draws);
      draws := draws + 1;
    }

    method SpawnZombie()
      requires ValidHost(math)
      modifies this`zombies, this`draws
      ensures State() == Progression.SpawnZombie(arena, math, old(State()))
    {
      var u := Random();
      var side := Side(u);
      var t := Random();
      var x, y;
      if side == 0 {
        x, y := t * arena.width, -20.0;
      } else if side == 1 {
        x, y := arena.width + 20.0, t * arena.height;
      } else if side == 2 {
        x, y := t * arena.width, arena.height + 20.0;
      } else {
        x, y := -20.0, t * arena.height;
      }
      assert x == SpawnPoint(side, t, 20.0, arena.width, arena.height).0;
      assert y == SpawnPoint(side, t, 20.0, arena.width, arena.height).1;
      zombies := zombies + [NewZombie(x, y, level)];
    }

    method SpawnBoss()
      requires ValidHost(math)
      modifies this`bosses, this`draws
      ensures State() == Progression.SpawnBoss(arena, math, old(State()))
    {
      var u := Random();
      var side := Side(u);
      var t := Random();
      var x, y;
      if side == 0 {
        x, y := t * arena.width, -30.0;
      } else if side == 1 {
        x, y := arena.width + 30.0, t * arena.height;
      } else if side == 2 {
        x, y := t * arena.width, arena.height + 30.0;
      } else {
        x, y := -30.0, t * arena.height;
      }
      assert x == SpawnPoint(side, t, 30.0, arena.width, arena.height).0;
      assert y == SpawnPoint(side, t, 30.0, arena.width, arena.height).1;
      bosses := bosses + [NewBoss(x, y, level)];
    }

    /** updatePlayer: move by the held keys, undo the move if it lands on a pillar,
        clamp, aim at the mouse, and fire when the weapon is ready. */
    method UpdatePlayer(c: Controls, now: int)
      requires 0 <= currentWeapon < |Weapons|
      modifies this`player, this`bullets, this`lastShot
      ensures State() == PlayerControl.UpdatePlayer(arena, math, old(State()), c, now)
    {
      MovePlayer(c);
      player := player.(angle := math.atan2(c.mouseY - player.y, c.mouseX - player.x));
      assert State() == old(State()).(player := player);

      if c.mouseDown && now - lastShot > Weapons[currentWeapon].fireRate {
        Shoot();
        lastShot := now;
      }
    }

    /** The movement half of updatePlayer: the held keys, the pillar check that
        undoes the whole move, and the clamp to the canvas. */
    method MovePlayer(c: Controls)
      modifies this`player
      ensures player == PlayerControl.Move(arena, old(player), c)
    {
      var oldX, oldY := player.x, player.y;
      if c.keyW { player := player.(y := player.y - player.speed); }
      if c.keyS { player := player.(y := player.y + player.speed); }
      if c.keyA { player := player.(x := player.x - player.speed); }
      if c.keyD { player := player.(x := player.x + player.speed); }
      ghost var tx, ty := PlayerControl.Tentative(old(player), c).0, PlayerControl.Tentative(old(player), c).1;
      assert player == old(player).(x := tx, y := ty);

      var i := 0;
      while i < |arena.pillars|
        invariant 0 <= i <= |arena.pillars|
        invariant forall k :: 0 <= k < i ==> !PlayerControl.Collides(arena.pillars[k], tx, ty)
        invariant player == old(player).(x := tx, y := ty)
      {
        if PlayerControl.Collides(arena.pillars[i], player.x, player.y) {
          player := player.(x := oldX, y := oldY);
          break;
        }
        i := i + 1;
      }
      ghost var settled := PlayerControl.Resolved(arena.pillars, old(player), c);
      assert player.x == settled.0 && player.y == settled.1;
      assert player == old(player).(x := settled.0, y := settled.1);

      player := player.(x := Clamp(15.0, arena.width - 15.0, player.x));
      player := player.(y := Clamp(15.0, arena.height - 15.0, player.y));
      assert player == PlayerControl.Move(arena, old(player), c);
    }

    /** shoot: three pellets for the Shotgun, one bullet otherwise. */
    method Shoot()
      requires 0 <= currentWeapon < |Weapons|
      modifies this`bullets
      ensures bullets == old(bullets) + PlayerControl.Volley(Weapons[currentWeapon], player, math)
    {
      var weapon := Weapons[currentWeapon];
      if weapon.name == "Shotgun" {
        for i := 0 to 3
          invariant bullets == old(bullets) + PlayerControl.Volley(weapon, player, math)[..i]
        {
          var spread := (i as real - 1.0) * 0.3;
          var angle := player.angle + spread;
          bullets := bullets + [Bullet(player.x, player.y, math.cos(angle) * 8.0, math.sin(angle) * 8.0,
                                       weapon.damage, weapon.explosive)];
        }
      } else {
        var angle := player.angle;
        bullets := bullets + [Bullet(player.x, player.y, math.cos(angle) * 8.0, math.sin(angle) * 8.0,
                                     weapon.damage, weapon.explosive)];
      }
    }

    /** createExplosion: ten fiery particles at (x, y). */
    method CreateExplosion(x: real, y: real)
      modifies this`particles, this`draws
      ensures State() == Effects.Explode(old(State()), x, y, math)
    {
      for i := 0 to 10
        invariant draws == old(draws) + 3 * i
        invariant particles == old(particles) + Effects.ExplosionBurst(x, y, math, old(draws))[..i]
      {
        var r1 := Random();
        var r2 := Random();
        var r3 := Random();
        particles := particles + [Particle(x, y, (r1 - 0.5) * 10.0, (r2 - 0.5) * 10.0, 30, Flame(r3 * 60.0 + 10.0))];
      }
    }

    /** createBloodSplash: one lasting splat near (x, y) and five blood particles. */
    method CreateBloodSplash(x: real, y: real)
      modifies this`particles, this`bloodSplats, this`draws
      ensures State() == Effects.BloodSplash(old(State()), x, y, math)
    {
      AddSplat(x, y);
      AddDrops(x, y);
    }

    /** The five blood particles of createBloodSplash. */
    method AddDrops(x: real, y: real)
      modifies this`particles, this`draws
      ensures particles == old(particles) + Effects.BloodDrops(x, y, math, old(draws))
      ensures draws == old(draws) + 10
    {
      ghost var drops := Effects.BloodDrops(x, y, math, draws);
      for i := 0 to 5
        invariant draws == old(draws) + 2 * i
        invariant particles == old(particles) + drops[..i]
      {
        var r4 := Random();
        var r5 := Random();
        var drop := Particle(x, y, (r4 - 0.5) * 6.0, (r5 - 0.5) * 6.0, 20, Blood);
        assert drop == drops[i];
        assert drops[..i + 1] == drops[..i] + [drop];
        particles := particles + [drop];
      }
      assert drops[..5] == drops;
    }

    /** The lasting splat of createBloodSplash, jittered around (x, y). */
    method AddSplat(x: real, y: real)
      modifies this`bloodSplats, this`draws
      ensures bloodSplats == old(bloodSplats) + [Effects.BloodSplat(x, y, math, old(draws))]
      ensures draws == old(draws) + 3
    {
      var r1 := Random();
      var r2 := Random();
      var r3 := Random();
      bloodSplats := bloodSplats + [Splat(x + (r1 - 0.5) * 10.0, y + (r2 - 0.5) * 10.0, r3 * 8.0 + 4.0, 0.8)];
    }

    /** A bullet strikes zombie `i`. */
    method HitZombie(i: int, b: Bullet)
      requires 0 <= i < |zombies|
      modifies this`zombies, this`particles, this`bloodSplats, this`score, this`zombiesKilled, this`draws
      ensures State() == Combat.HitZombie(old(State()), i, b, math)
    {
      ghost var w := State();
      var zombie := zombies[i];
      zombies := zombies[i := zombie.(health := zombie.health - b.damage)];
      ghost var hit := zombies;
      assert hit == w.zombies[i := Combat.Hurt(zombie, b.damage)];
      if b.explosive {
        SplashZombies(b);
        CreateExplosion(b.x, b.y);
      }
      ghost var w1 := State();
      assert w1 == if b.explosive then Effects.Explode(w.(zombies := Combat.Splash(hit, b)), b.x, b.y, math)
                   else w.(zombies := hit);
      var struck := zombies[i];
      CreateBloodSplash(struck.x, struck.y);
      ghost var w2 := State();
      if struck.health <= 0.0 {
        SlayZombie(i);
        assert State() == w2.(zombies := Remove(w2.zombies, i), score := w2.score + 10, zombiesKilled := w2.zombiesKilled + 1);
      }
    }

    /** A zombie whose health has run out is spliced out for 10 points and one kill. */
    method SlayZombie(i: int)
      requires 0 <= i < |zombies|
      modifies this`zombies, this`score, this`zombiesKilled
      ensures zombies == Remove(old(zombies), i)
      ensures score == old(score) + 10 && zombiesKilled == old(zombiesKilled) + 1
    {
      zombies := zombies[..i] + zombies[i + 1..];
      score := score + 10;
      zombiesKilled := zombiesKilled + 1;
    }

    /** A boss whose health has run out is spliced out for 100 points and ten kills. */
    method SlayBoss(j: int)
      requires 0 <= j < |bosses|
      modifies this`bosses, this`score, this`zombiesKilled
      ensures bosses == Remove(old(bosses), j)
      ensures score == old(score) + 100 && zombiesKilled == old(zombiesKilled) + 10
    {
      bosses := bosses[..j] + bosses[j + 1..];
      score := score + 100;
      zombiesKilled := zombiesKilled + 10;
    }

    /** The blast of an explosive bullet: every zombie within 50 of it, the struck
        one included, loses half the bullet's damage. */
    method SplashZombies(b: Bullet)
      requires b.explosive
      modifies this`zombies
      ensures zombies == Combat.Splash(old(zombies), b)
    {
      var k := 0;
      while k < |zombies|
        invariant 0 <= k <= |zombies| == |old(zombies)|
        invariant forall j :: 0 <= j < k ==> zombies[j] == Combat.Splash(old(zombies), b)[j]
        invariant forall j :: k <= j < |zombies| ==> zombies[j] == old(zombies)[j]
      {
        var z := zombies[k];
        assert Combat.Splash(old(zombies), b)[k] == Combat.Hurt(z, Combat.SplashOn(b, z));
        if Within(b.x - z.x, b.y - z.y, 50.0) {
          zombies := zombies[k := z.(health := z.health - b.damage * 0.5)];
        } else {
          assert Combat.Hurt(z, Combat.SplashOn(b, z)) == z;
        }
        k := k + 1;
      }
    }

    /** A bullet strikes boss `j`. */
    method HitBoss(j: int, b: Bullet)
      requires 0 <= j < |bosses|
      modifies this`bosses, this`particles, this`bloodSplats, this`score, this`zombiesKilled, this`draws
      ensures State() == Combat.HitBoss(old(State()), j, b, math)
    {
      ghost var w := State();
      var boss := bosses[j];
      boss := boss.(health := boss.health - b.damage);
      bosses := bosses[j := boss];
      assert State() == w.(bosses := w.bosses[j := Combat.Hurt(w.bosses[j], b.damage)]);
      if b.explosive {
        CreateExplosion(b.x, b.y);
      }
      CreateBloodSplash(boss.x, boss.y);
      ghost var w2 := State();
      if boss.health <= 0.0 {
        SlayBoss(j);
        assert State() == w2.(bosses := Remove(w2.bosses, j), score := w2.score + 100, zombiesKilled := w2.zombiesKilled + 10);
      }
    }

    /** The filter callback of updateBullets for one bullet: returns whether the
        bullet stays and the bullet as moved. */
    method ResolveBullet(b0: Bullet) returns (keep: bool, b: Bullet)
      modifies this`zombies, this`bosses, this`particles, this`bloodSplats, this`score, this`zombiesKilled, this`draws
      ensures b == Combat.Advance(b0)
      ensures keep == Combat.ResolveBullet(arena, math, old(State()), b0).0
      ensures State() == Combat.ResolveBullet(arena, math, old(State()), b0).1
    {
      b := b0.(x := b0.x + b0.vx, y := b0.y + b0.vy);
      if b.x < 0.0 || b.x > arena.width || b.y < 0.0 || b.y > arena.height {
        return false, b;
      }
      var k := 0;
      while k < |arena.pillars|
        invariant 0 <= k <= |arena.pillars|
        invariant forall l :: 0 <= l < k ==> !Combat.InPillar(arena.pillars[l], b)
      {
        if Combat.InPillar(arena.pillars[k], b) {
          return false, b;
        }
        k := k + 1;
      }
      assert !Combat.Stopped(arena.pillars, b);
      keep := Strike(b);
    }

    /** The zombie and boss scans of the updateBullets callback, from the highest
        index down; returns whether the bullet flies on. */
    method Strike(b: Bullet) returns (keep: bool)
      modifies this`zombies, this`bosses, this`particles, this`bloodSplats, this`score, this`zombiesKilled, this`draws
      ensures keep == Combat.Strike(math, old(State()), b).0
      ensures State() == Combat.Strike(math, old(State()), b).1
    {
      var i := |zombies| - 1;
      while i >= 0
        invariant -1 <= i < |zombies|
        invariant Combat.LastHit(zombies, b) == Combat.LastHit(zombies[..i + 1], b)
      {
        assert zombies[..i + 1][..i] == zombies[..i];
        if Combat.Touches(zombies[i], b) {
          HitZombie(i, b);
          return false;
        }
        i := i - 1;
      }
      var j := |bosses| - 1;
      while j >= 0
        invariant -1 <= j < |bosses|
        invariant Combat.LastHit(bosses, b) == Combat.LastHit(bosses[..j + 1], b)
      {
        assert bosses[..j + 1][..j] == bosses[..j];
        if Combat.Touches(bosses[j], b) {
          HitBoss(j, b);
          return false;
        }
        j := j - 1;
      }
      return true;
    }

    /** updateBullets: resolve every bullet in order and keep the survivors. */
    method UpdateBullets()
      modifies this`bullets, this`zombies, this`bosses, this`particles, this`bloodSplats, this`score, this`zombiesKilled, this`draws
      ensures State() == Combat.UpdateBullets(arena, math, old(State()))
    {
      var kept := [];
      var i := 0;
      while i < |bullets|
        invariant 0 <= i <= |bullets| && bullets == old(bullets)
        invariant kept == Combat.ResolveAll(arena, math, old(State()), bullets[..i]).0
        invariant State() == Combat.ResolveAll(arena, math, old(State()), bullets[..i]).1
      {
        Combat.ResolveAllStep(arena, math, old(State()), bullets, i);
        var keep, moved := ResolveBullet(bullets[i]);
        if keep {
          kept := kept + [moved];
        }
        i := i + 1;
      }
      assert bullets[..i] == old(bullets);
      bullets := kept;
    }

    /** The shared steering of updateZombies and updateBosses: one creature moves
        towards the player at (px, py), around the first pillar in range. */
    method Steered(c: Creature, px: real, py: real, margin: real) returns (s: Creature)
      ensures s == Steering.Steer(arena.pillars, c, px, py, margin, math)
    {
      s := c;
      if Steering.Apart(c, px, py) {
        var blocked := false;
        var ux, uy := px - c.x, py - c.y;
        var k := 0;
        while k < |arena.pillars|
          invariant 0 <= k <= |arena.pillars|
          invariant !blocked
          invariant Steering.FirstNear(arena.pillars, c.x, c.y, margin, 0) == Steering.FirstNear(arena.pillars, c.x, c.y, margin, k)
        {
          var q := arena.pillars[k];
          if Steering.Near(q, c.x, c.y, margin) {
            blocked := true;
            ux, uy := Unit(math, -(q.y - c.y), q.x - c.x).0, Unit(math, -(q.y - c.y), q.x - c.x).1;
            break;
          }
          k := k + 1;
        }
        if !blocked {
          ux, uy := Unit(math, px - c.x, py - c.y).0, Unit(math, px - c.x, py - c.y).1;
        }
        ghost var first := Steering.FirstNear(arena.pillars, c.x, c.y, margin, 0);
        assert blocked ==> first == k;
        assert !blocked ==> first == -1;
        ghost var u := Steering.Heading(arena.pillars, c.x, c.y, px, py, margin, math);
        assert ux == u.0 && uy == u.1;
        s := Steering.Stride(c, ux, uy);
      }
    }

    /** updateZombies: every zombie steers towards the player and bites on contact. */
    method UpdateZombies()
      modifies this`zombies, this`player
      ensures State() == Steering.UpdateZombies(arena, math, old(State()))
    {
      var k := 0;
      while k < |zombies|
        invariant 0 <= k <= |zombies| == |old(zombies)|
        invariant State() == Steering.ZombieRounds(arena, math, old(State()), k)
      {
        ZombieTurn(k);
        k := k + 1;
      }
    }

    /** The forEach callback of updateZombies for zombie `k`. */
    method ZombieTurn(k: int)
      requires 0 <= k < |zombies|
      modifies this`zombies, this`player
      ensures State() == Steering.ZombieTurn(arena, math, old(State()), k)
    {
      var z := zombies[k];
      var moved := Steered(z, player.x, player.y, 30.0);
      zombies := zombies[k := moved];
      if Within(player.x - z.x, player.y - z.y, z.size + 15.0) {
        player := player.(health := player.health - 0.5);
      }
    }

    /** updateBosses: every boss steers, bites on contact, and summons three minis
        when its attack is ready. */
    method UpdateBosses(now: int)
      requires Steering.AllBosses(bosses)
      modifies this`bosses, this`zombies, this`player
      ensures State() == Steering.UpdateBosses(arena, math, old(State()), now)
    {
      var j := 0;
      while j < |bosses|
        invariant 0 <= j <= |bosses| == |old(bosses)|
        invariant State() == Steering.BossRounds(arena, math, old(State()), j, now)
      {
        assert Steering.AllBosses(bosses) && bosses[j] in bosses;
        BossTurn(j, now);
        j := j + 1;
      }
    }

    /** The forEach callback of updateBosses for boss `j`. */
    method BossTurn(j: int, now: int)
      requires 0 <= j < |bosses| && bosses[j].kind.Boss?
      modifies this`bosses, this`zombies, this`player
      ensures State() == Steering.BossTurn(arena, math, old(State()), j, now)
    {
      var b := bosses[j];
      var dx, dy := player.x - b.x, player.y - b.y;
      var moved := Steered(b, player.x, player.y, 40.0);
      bosses := bosses[j := moved];
      if Within(dx, dy, b.size + 15.0) {
        player := player.(health := player.health - 1.0);
      }
      if now - b.kind.lastAttack > 2000 && Within(dx, dy, 200.0) {
        SummonMinis(moved.x, moved.y);
        bosses := bosses[j := moved.(kind := Boss(now))];
      }
    }

    /** A boss's attack: three mini zombies evenly spaced on a circle of radius 40
        around (x, y). */
    method SummonMinis(x: real, y: real)
      modifies this`zombies
      ensures zombies == old(zombies) + Steering.Minis(x, y, math)
    {
      for i := 0 to 3
        invariant zombies == old(zombies) + Steering.Minis(x, y, math)[..i]
      {
        var angle := Steering.MiniAngle(math, i);
        var mini := NewMini(x + math.cos(angle) * 40.0, y + math.sin(angle) * 40.0);
        assert mini == Steering.MiniAt(x, y, i, math);
        assert i == 0 || i == 1 || i == 2;
        assert mini == Steering.Minis(x, y, math)[i];
        assert Steering.Minis(x, y, math)[..i + 1] == Steering.Minis(x, y, math)[..i] + [mini];
        zombies := zombies + [mini];
      }
      assert Steering.Minis(x, y, math)[..3] == Steering.Minis(x, y, math);
    }

    /** updateParticles: age every particle and drop the spent ones. */
    method UpdateParticles()
      modifies this`particles
      ensures State() == Effects.UpdateParticles(old(State()))
    {
      var kept := [];
      var i := 0;
      while i < |particles|
        invariant 0 <= i <= |particles| && particles == old(particles)
        invariant kept == Effects.Decay(particles[..i])
      {
        assert particles[..i + 1][..i] == particles[..i];
        var p := particles[i];
        var q := p.(x := p.x + p.vx, y := p.y + p.vy, vx := p.vx * 0.95, vy := p.vy * 0.95, life := p.life - 1);
        if q.life > 0 {
          kept := kept + [q];
        }
        i := i + 1;
      }
      assert particles[..i] == old(particles);
      particles := kept;
    }

    /** updateGame: the frame counter, the random zombie spawn, the boss threshold
        and the level-up; reports whether the player has died. */
    method UpdateGame() returns (over: bool)
      requires ValidHost(math)
      modifies this`gameTime, this`draws, this`zombies, this`bosses, this`nextBoss, this`level, this`player
      ensures State() == Progression.UpdateGame(arena, math, old(State()))
      ensures over == Progression.GameOver(State())
    {
      gameTime := gameTime + 1;
      var u := Random();
      if u < 0.008 + (level as real) * 0.003 {
        SpawnZombie();
      }
      assert State() == Progression.SpawnRoll(arena, math, old(State()));
      BossWave();
      LevelUp();
      over := player.health <= 0.0;
    }

    /** The boss threshold of updateGame: one boss once the kill count reaches
        `nextBoss`, which then moves up by 50 + 10 * level. */
    method BossWave()
      requires ValidHost(math)
      modifies this`draws, this`bosses, this`nextBoss
      ensures State() == Progression.BossCheck(arena, math, old(State()))
    {
      if zombiesKilled >= nextBoss {
        SpawnBoss();
        nextBoss := nextBoss + 50 + level * 10;
      }
    }

    /** The level-up of updateGame: one level once the kill count reaches
        20 * level, with 25 health back, capped at 100. */
    method LevelUp()
      modifies this`level, this`player
      ensures State() == Progression.LevelCheck(old(State()))
    {
      if zombiesKilled >= level * 20 {
        level := level + 1;
        player := player.(health := Min(100.0, player.health + 25.0));
      }
    }

    /** One pass of gameLoop: the updates in the order the loop runs them. */
    method Step(c: Controls, now: int) returns (over: bool)
      requires Valid()
      modifies this
      ensures Valid()
      ensures State() == Frame.Step(arena, math, old(State()), c, now)
      ensures over == Progression.GameOver(State())
    {
      ghost var w0 := State();
      UpdatePlayer(c, now);
      ghost var w1 := State();
      UpdateBullets();
      Combat.UpdateBulletsFacts(arena, math, w1);
      ghost var w2 := State();
      UpdateZombies();
      Steering.UpdateZombiesFacts(arena, math, w2);
      ghost var w3 := State();
      UpdateBosses(now);
      Steering.UpdateBossesFacts(arena, math, w3, now);
      ghost var w4 := State();
      UpdateParticles();
      ghost var w5 := State();
      over := UpdateGame();
      Progression.UpdateGameProgress(arena, math, w5);
    }
  }
}
