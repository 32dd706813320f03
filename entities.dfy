/** The `game` record of game.js and the constant tables beside it: the pillars
    and the weapon catalogue. */
module Entities {
  import opened Host

  datatype Player = Player(x: real, y: real, health: real, angle: real, speed: real)

  datatype Bullet = Bullet(x: real, y: real, vx: real, vy: real, damage: real, explosive: bool)

  /** Zombies are `Normal` or `Mini`; a boss also remembers when it last spawned minis. */
  datatype Kind = Normal | Mini | Boss(lastAttack: int)

  datatype Creature = Creature(x: real, y: real, health: real, speed: real, size: real, kind: Kind)

  /** Explosion particles are coloured `hsl(hue, 100%, 50%)`, blood particles dark red. */
  datatype Colour = Flame(hue: real) | Blood

  datatype Particle = Particle(x: real, y: real, vx: real, vy: real, life: int, colour: Colour)

  datatype Splat = Splat(x: real, y: real, size: real, alpha: real)

  datatype Shape = Standing | Lying | Half

  datatype Pillar = Pillar(x: real, y: real, radius: real, shape: Shape, broken: bool)

  /** A catalogue entry; every weapon's ammo is unlimited, so there is no ammo field. */
  datatype Weapon = Weapon(name: string, damage: real, fireRate: int, unlockLevel: int, explosive: bool)

  /** What the input handlers have recorded: the WASD keys held, the mouse position
      on the canvas and whether the mouse button is down. */
  datatype Controls = Controls(keyW: bool, keyA: bool, keyS: bool, keyD: bool,
                               mouseX: real, mouseY: real, mouseDown: bool)

  /** `parseInt(e.key)` of a key press: a number, or NaN. */
  datatype Parsed = NaN | Int(value: int)

  const Pillars: seq<Pillar> := [
    Pillar(150.0, 100.0, 25.0, Standing, false),
    Pillar(600.0, 150.0, 20.0, Lying, true),
    Pillar(200.0, 400.0, 25.0, Standing, false),
    Pillar(550.0, 450.0, 15.0, Half, true),
    Pillar(350.0, 200.0, 25.0, Standing, false),
    Pillar(100.0, 350.0, 18.0, Lying, false)
  ]

  const Weapons: seq<Weapon> := [
    Weapon("Pistol", 25.0, 300, 1, false),
    Weapon("Uzi", 15.0, 80, 2, false),
    Weapon("Shotgun", 20.0, 600, 3, false),
    Weapon("SMG", 20.0, 100, 4, false),
    Weapon("Rifle", 50.0, 800, 6, false),
    Weapon("Rocket", 100.0, 1000, 8, true)
  ]

  /** What stays fixed during a session: the canvas size and the pillar layout. */
  datatype Arena = Arena(width: real, height: real, pillars: seq<Pillar>)

  /** The mutable `game` record, without the input fields (those are `Controls`) and
      the constant pillars; `draws` counts the Math.random() calls made so far. */
  datatype World = World(
    player: Player,
    bullets: seq<Bullet>,
    zombies: seq<Creature>,
    bosses: seq<Creature>,
    particles: seq<Particle>,
    bloodSplats: seq<Splat>,
    level: int,
    score: int,
    zombiesKilled: int,
    currentWeapon: int,
    lastShot: int,
    gameTime: int,
    nextBoss: int,
    draws: nat)

  /** The record as game.js initialises it. */
  function Initial(): (w: World)
    ensures Consistent(w)
    ensures w.level == 1 && w.currentWeapon == 0 && w.zombiesKilled == 0 && w.score == 0
    ensures w.nextBoss == 50 && w.gameTime == 0 && w.lastShot == 0
    ensures w.player == Player(400.0, 300.0, 100.0, 0.0, 3.0)
    ensures w.bullets == [] && w.zombies == [] && w.bosses == [] && w.particles == [] && w.bloodSplats == []
  {
    World(Player(400.0, 300.0, 100.0, 0.0, 3.0), [], [], [], [], [], 1, 0, 0, 0, 0, 0, 50, 0)
  }

  predicate Unlocked(weapon: int, level: int) {
    0 <= weapon < |Weapons| && Weapons[weapon].unlockLevel <= level
  }

  /** What stays true of the record from frame to frame: the level starts at 1 and
      only rises, the equipped weapon is unlocked, every kill is worth 10 points
      (a boss is 10 kills and 100 points), live particles have life left, and the
      zombie and boss lists hold zombies and bosses. */
  predicate Consistent(w: World) {
    && w.level >= 1
    && Unlocked(w.currentWeapon, w.level)
    && w.zombiesKilled >= 0
    && w.score == 10 * w.zombiesKilled
    && (forall p <- w.particles :: p.life > 0)
    && (forall z <- w.zombies :: !z.kind.Boss?)
    && (forall b <- w.bosses :: b.kind.Boss?)
  }

  /** A zombie spawned at `level` (game.js spawnZombie). */
  function NewZombie(x: real, y: real, level: int): (z: Creature)
    ensures z.kind == Normal && z.x == x && z.y == y
    ensures level >= 1 ==> z.health >= 60.0 && z.speed >= 0.35
  {
    Creature(x, y, 50.0 + level as real * 10.0, 0.3 + level as real * 0.05, 15.0, Normal)
  }

  /** A boss spawned at `level` (game.js spawnBoss); it has never attacked. */
  function NewBoss(x: real, y: real, level: int): (b: Creature)
    ensures b.kind == Boss(0) && b.x == x && b.y == y
    ensures level >= 1 ==> b.health >= 350.0 && b.speed >= 0.23
  {
    Creature(x, y, 300.0 + level as real * 50.0, 0.2 + level as real * 0.03, 30.0, Boss(0))
  }

  /** Spawned enemies get tougher and faster as the level rises. */
  lemma SpawnStatsGrow(l1: int, l2: int, x: real, y: real)
    requires l1 <= l2
    ensures NewZombie(x, y, l1).health <= NewZombie(x, y, l2).health
    ensures NewZombie(x, y, l1).speed <= NewZombie(x, y, l2).speed
    ensures NewBoss(x, y, l1).health <= NewBoss(x, y, l2).health
    ensures NewBoss(x, y, l1).speed <= NewBoss(x, y, l2).speed
  {
  }

  /** A mini zombie summoned by a boss. */
  function NewMini(x: real, y: real): (z: Creature)
    ensures z.kind == Mini && z.x == x && z.y == y && z.health == 30.0
  {
    Creature(x, y, 30.0, 0.6, 10.0, Mini)
  }

  /** `Math.floor(Math.random() * 4)`: which canvas edge an enemy enters from. */
  function Side(u: real): (side: int)
    requires 0.0 <= u < 1.0
    ensures 0 <= side < 4
  {
    (u * 4.0).Floor
  }

  /** Where an enemy enters: `margin` beyond the chosen edge, at fraction `t` along it. */
  function SpawnPoint(side: int, t: real, margin: real, width: real, height: real): (p: (real, real))
    requires 0 <= side < 4
    ensures margin > 0.0 ==> p.0 < 0.0 || p.0 > width || p.1 < 0.0 || p.1 > height
  {
    match side
    case 0 => (t * width, -margin)
    case 1 => (width + margin, t * height)
    case 2 => (t * width, height + margin)
    case 3 => (-margin, t * height)
  }
}
